// What the scheduler guarantees over any sequence of arrivals, completions and
// dispatches: per-tenant order, conservation, and a bound on waiting.
module Fairness {
  import opened Wrappers
  import opened FairScheduler

  datatype Event = Arrive(job: TenantJob) | Finish(tenant: Tenant) | Ask

  function Step(s: Sched, e: Event): (Sched, Option<TenantJob>)
    requires s.order == [] || s.next < |s.order|
  {
    match e
    case Arrive(job) => (AddJob(s, job), None)
    case Finish(t) => (Completed(s, t), None)
    case Ask => NextJob(s)
  }

  lemma StepKeepsValid(s: Sched, e: Event)
    requires Valid(s)
    ensures Valid(Step(s, e).0)
  {
    match e
    case Arrive(job) => AddKeepsValid(s, job);
    case Finish(t) => CompleteKeepsValid(s, t);
    case Ask => NextKeepsValid(s);
  }

  // The state after a sequence of events, and the jobs handed out on the way.
  ghost function Run(s: Sched, events: seq<Event>): (r: (Sched, seq<TenantJob>))
    requires Valid(s)
    ensures Valid(r.0)
  {
    if events == [] then (s, [])
    else
      var (mid, out) := Run(s, events[..|events| - 1]);
      StepKeepsValid(mid, events[|events| - 1]);
      var (end, job) := Step(mid, events[|events| - 1]);
      (end, if job.Some? then out + [job.value] else out)
  }

  function Of(jobs: seq<TenantJob>, t: Tenant): seq<TenantJob> {
    if jobs == [] then []
    else
      var rest := Of(jobs[..|jobs| - 1], t);
      if jobs[|jobs| - 1].tenant == t then rest + [jobs[|jobs| - 1]] else rest
  }

  function Arrivals(events: seq<Event>, t: Tenant): seq<TenantJob> {
    if events == [] then []
    else
      var e, rest := events[|events| - 1], Arrivals(events[..|events| - 1], t);
      if e.Arrive? && e.job.tenant == t then rest + [e.job] else rest
  }

  function Came(e: Event, t: Tenant): seq<TenantJob> {
    if e.Arrive? && e.job.tenant == t then [e.job] else []
  }

  function Left(job: Option<TenantJob>, t: Tenant): seq<TenantJob> {
    if job.Some? && job.value.tenant == t then [job.value] else []
  }

  // What one step does to a tenant's queue.
  lemma StepQueues(s: Sched, e: Event, t: Tenant)
    requires Valid(s)
    ensures var (s', job) := Step(s, e);
      s.Queue(t) + Came(e, t) == Left(job, t) + s'.Queue(t)
  {
    if e.Ask? && s.order != [] && Pick(s, 0).Some? {
      var u := s.order[s.At(Pick(s, 0).value)];
      assert s.Queue(u)[0] in s.Queue(u);
      assert s.Queue(u) == [s.Queue(u)[0]] + s.Queue(u)[1..];
    }
  }

  lemma RunOf(s: Sched, events: seq<Event>, t: Tenant)
    requires Valid(s) && events != []
    ensures var front, e := events[..|events| - 1], events[|events| - 1];
      var (mid, out) := Run(s, front);
      && Run(s, events).0 == Step(mid, e).0
      && Of(Run(s, events).1, t) == Of(out, t) + Left(Step(mid, e).1, t)
      && Arrivals(events, t) == Arrivals(front, t) + Came(e, t)
  {
    var front, e := events[..|events| - 1], events[|events| - 1];
    var (mid, out) := Run(s, front);
    var job := Step(mid, e).1;
    if job.Some? { assert (out + [job.value])[..|out|] == out; }
  }

  // First in, first out per tenant, nothing lost and nothing duplicated: what
  // arrived is what was handed out followed by what still waits.
  lemma {:induction false} FifoPerTenant(s: Sched, events: seq<Event>, t: Tenant)
    requires Valid(s)
    ensures var (end, out) := Run(s, events);
      s.Queue(t) + Arrivals(events, t) == Of(out, t) + end.Queue(t)
  {
    if events != [] {
      var front, e := events[..|events| - 1], events[|events| - 1];
      FifoPerTenant(s, front, t);
      RunOf(s, events, t);
      var (mid, out) := Run(s, front);
      StepQueues(mid, e, t);
      Reassociate(s.Queue(t), Arrivals(front, t), Came(e, t), Of(out, t), mid.Queue(t), Left(Step(mid, e).1, t), Step(mid, e).0.Queue(t));
    }
  }

  lemma Reassociate<T>(q: seq<T>, a: seq<T>, c: seq<T>, o: seq<T>, m: seq<T>, l: seq<T>, e: seq<T>)
    requires q + a == o + m && m + c == l + e
    ensures q + (a + c) == (o + l) + e
  {
    assert q + (a + c) == (q + a) + c;
    assert (o + m) + c == o + (m + c);
    assert (o + l) + e == o + (l + e);
  }

  function Finishes(events: seq<Event>, t: Tenant): nat {
    if events == [] then 0
    else Finishes(events[..|events| - 1], t) + if events[|events| - 1] == Finish(t) then 1 else 0
  }

  // Completions are reported only for jobs that were handed out.
  ghost predicate Honest(s: Sched, events: seq<Event>, t: Tenant)
    requires Valid(s)
  {
    events == [] ||
      (Honest(s, events[..|events| - 1], t)
       && (events[|events| - 1] == Finish(t) ==> Run(s, events[..|events| - 1]).0.InFlight(t) > 0))
  }

  lemma StepInFlight(s: Sched, e: Event, t: Tenant)
    requires Valid(s) && (e == Finish(t) ==> s.InFlight(t) > 0)
    ensures var (s', job) := Step(s, e);
      && s'.InFlight(t) == s.InFlight(t) + |Left(job, t)| - (if e == Finish(t) then 1 else 0)
      && s'.maxFlight == s.maxFlight
  {
    if e.Ask? && s.order != [] && Pick(s, 0).Some? {
      var u := s.order[s.At(Pick(s, 0).value)];
      assert s.Queue(u)[0] in s.Queue(u);
    }
  }

  // A tenant's in-flight count is what was handed out minus what completed, and
  // never exceeds its cap.
  lemma {:induction false} InFlightCounts(s: Sched, events: seq<Event>, t: Tenant)
    requires Valid(s) && Honest(s, events, t)
    ensures var (end, out) := Run(s, events);
      && end.InFlight(t) == s.InFlight(t) + |Of(out, t)| - Finishes(events, t)
      && end.maxFlight == s.maxFlight
      && end.InFlight(t) <= s.maxFlight
  {
    if events != [] {
      var front, e := events[..|events| - 1], events[|events| - 1];
      InFlightCounts(s, front, t);
      RunOf(s, events, t);
      StepInFlight(Run(s, front).0, e, t);
    }
  }

  // nextJob refuses exactly when every queued tenant must wait, because it is at
  // its cap, or because it was served last, has used up its burst and is not
  // alone; and then it moves nothing.
  lemma RefusesIff(s: Sched)
    requires Valid(s)
    ensures NextJob(s).1.None? <==>
      forall t :: t in s.order ==>
        || (t in s.inflight && s.inflight[t] >= s.maxFlight)
        || (t == s.lastTenant && s.currentBurst >= s.burst && |s.order| >= 2)
    ensures NextJob(s).1.None? ==> NextJob(s).0 == s
  {
    if s.order != [] {
      if Pick(s, 0).None? {
        forall t | t in s.order ensures s.Skips(t) {
          var i :| 0 <= i < |s.order| && s.order[i] == t;
          var k := if i >= s.next then i - s.next else i + |s.order| - s.next;
          assert s.At(k) == i;
        }
      } else {
        assert s.order[s.At(Pick(s, 0).value)] in s.order;
      }
    }
  }

  // Alone in the queue and below its cap, a tenant always gets its next job,
  // however long its burst.
  lemma AloneIsServed(s: Sched, t: Tenant)
    requires Valid(s) && s.order == [t] && (t !in s.inflight || s.inflight[t] < s.maxFlight)
    ensures t in s.pending && s.pending[t] != []
    ensures NextJob(s).1 == Some(s.pending[t][0])
    ensures var s' := NextJob(s).0;
      && t in s'.pending && s'.pending[t] == s.pending[t][1..]
      && t in s'.inflight && s'.inflight[t] == (if t in s.inflight then s.inflight[t] else 0) + 1
  {
    RefusesIff(s);
    assert s.order[s.At(Pick(s, 0).value)] == t;
  }

  // The tenant behind position `i`, going around.
  function Behind(order: seq<Tenant>, i: nat): Tenant
    requires i < |order|
  {
    if i + 1 == |order| then order[0] else order[i + 1]
  }

  // What handing out a job does to every field: the tenant's oldest job is gone
  // and in flight, its burst goes on or begins, and the cursor stays with it
  // while it has jobs and burst left, else moves to the tenant behind it; a
  // drained tenant leaves the order.
  lemma HandsOut(s: Sched, i: nat)
    requires Valid(s) && NextJob(s).1.Some? && i < |s.order| && s.order[i] == NextJob(s).1.value.tenant
    ensures var s', t := NextJob(s).0, s.order[i];
      && s' == Sched(s.burst, s.maxFlight, s'.inflight, s'.pending, s'.order, s'.next, t, s'.currentBurst)
      && t in s.pending && s.pending[t] != [] && NextJob(s).1.value == s.pending[t][0]
      && s'.pending == s.pending[t := s.pending[t][1..]]
      && s'.inflight == s.inflight[t := (if t in s.inflight then s.inflight[t] else 0) + 1]
      && s'.currentBurst == (if s.lastTenant == t then s.currentBurst + 1 else 1)
      && (|s.pending[t]| > 1 ==>
            && s'.order == s.order && s'.next < |s.order|
            && s'.order[s'.next] == if s'.currentBurst < s.burst then t else Behind(s.order, i))
      && (|s.pending[t]| == 1 ==>
            && s'.order == s.order[..i] + s.order[i + 1..]
            && (s'.order != [] ==> s'.next < |s'.order| && s'.order[s'.next] == Behind(s.order, i)))
  {
    var idx := s.At(Pick(s, 0).value);
    assert s.Queue(s.order[idx])[0] in s.Queue(s.order[idx]);
    assert idx == i && NextJob(s).0 == Dispatch(s, i);
    WithoutOne(s.order, i);
  }

  // At its cap, or served last with its burst used up while others are queued.
  predicate MustWait(s: Sched, t: Tenant) {
    || (t in s.inflight && s.inflight[t] >= s.maxFlight)
    || (t == s.lastTenant && s.currentBurst >= s.burst && |s.order| >= 2)
  }

  // The job handed out is the oldest of the first tenant, from the cursor on and
  // around, that need not wait.
  lemma FirstInReach(s: Sched, around: seq<Tenant>, k: nat)
    requires Valid(s) && s.order != [] && around == s.order[s.next..] + s.order[..s.next]
    requires k < |around| && !MustWait(s, around[k]) && forall i :: 0 <= i < k ==> MustWait(s, around[i])
    ensures around[k] in s.pending && s.pending[around[k]] != [] && NextJob(s).1 == Some(s.pending[around[k]][0])
  {
    forall i | 0 <= i < |around| ensures s.order[s.At(i)] == around[i] && s.Skips(around[i]) == MustWait(s, around[i]) {
      assert around[i] in s.order;
    }
    var picked := Pick(s, 0);
    assert picked == Some(k);
  }

  // -------------------------------------------------------- waiting is bounded

  ghost function Position(s: Sched, w: Tenant): (i: nat)
    requires w in s.order
    ensures i < |s.order| && s.order[i] == w
  {
    var i :| 0 <= i < |s.order| && s.order[i] == w;
    i
  }

  // How many places after the cursor position `i` is.
  function Distance(s: Sched, i: nat): (d: nat)
    requires s.next < |s.order| && i < |s.order|
    ensures d < |s.order| && s.At(d) == i
  {
    if i >= s.next then i - s.next else i + |s.order| - s.next
  }

  // What the tenant at the cursor may still take before it must wait.
  function Allowance(s: Sched): nat
    requires s.next < |s.order|
  {
    if s.order[s.next] != s.lastTenant then s.burst
    else if s.currentBurst < s.burst then s.burst - s.currentBurst
    else 0
  }

  // `n` full bursts.
  function Bursts(b: nat, n: nat): nat {
    if n == 0 then 0 else b + Bursts(b, n - 1)
  }

  lemma {:induction false} BurstsGrow(b: nat, m: nat, n: nat)
    requires m <= n
    ensures Bursts(b, m) <= Bursts(b, n)
  {
    if m < n { BurstsGrow(b, m, n - 1); }
  }

  lemma {:induction false} BurstsProduct(b: nat, n: nat)
    ensures Bursts(b, n) == b * n
  {
    if n > 0 {
      BurstsProduct(b, n - 1);
      assert b * n == b * (n - 1) + b;
    }
  }

  function PatienceAt(spent: bool, d: nat, allowance: nat, b: nat, n: nat): nat
    requires n >= 1
  {
    if spent then Bursts(b, n - 1)
    else if d == 0 then 0
    else allowance + Bursts(b, d - 1)
  }

  // A bound on the dispatches to others before `w` is served.
  ghost function Patience(s: Sched, w: Tenant): nat
    requires Valid(s) && w in s.order
  {
    PatienceAt(s.BurstSpent(w), Distance(s, Position(s, w)), Allowance(s), s.burst, |s.order|)
  }

  lemma PatienceBounded(s: Sched, w: Tenant)
    requires Valid(s) && w in s.order
    ensures Patience(s, w) <= s.burst * (|s.order| - 1)
  {
    BurstsProduct(s.burst, |s.order| - 1);
    BurstsGrow(s.burst, Distance(s, Position(s, w)), |s.order| - 1);
  }

  // The distance of position `i` from position `idx`, going around.
  function Around(idx: nat, i: nat, n: nat): nat
    requires idx < n && i < n
  {
    if i >= idx then i - idx else i + n - idx
  }

  // The served tenant keeps its place and the cursor.
  lemma StaysAt(s: Sched, w: Tenant, idx: nat)
    requires Valid(s) && w in s.order && idx < |s.order| && s.order[idx] != w && s.Queue(s.order[idx]) != []
    requires |s.Queue(s.order[idx])| > 1
    ensures var s' := Dispatch(s, idx);
      && s'.order == s.order
      && s'.next == (if s'.currentBurst < s.burst then idx else if idx + 1 == |s.order| then 0 else idx + 1)
  {
  }

  // The drained tenant leaves; the cursor points at its successor.
  lemma LeavesAt(s: Sched, w: Tenant, idx: nat)
    requires Valid(s) && w in s.order && idx < |s.order| && s.order[idx] != w && s.Queue(s.order[idx]) != []
    requires |s.Queue(s.order[idx])| == 1
    ensures var s', i := Dispatch(s, idx), Position(s, w);
      && s'.order == s.order[..idx] + s.order[idx + 1..]
      && s'.next == (if idx + 1 == |s.order| then 0 else idx)
      && s'.order[if i < idx then i else i - 1] == w
      && s.order[idx] !in s'.order
  {
    WithoutOne(s.order, idx);
  }

  // Where the cursor stands relative to `w` after the tenant at `idx` was served.
  lemma DistanceAfter(s: Sched, w: Tenant, idx: nat)
    requires Valid(s) && w in s.order && idx < |s.order|
    requires !s.Skips(s.order[idx]) && s.order[idx] != w
    ensures var s', t, n := Dispatch(s, idx), s.order[idx], |s.order|;
      var away := Around(idx, Position(s, w), n);
      && Valid(s') && w in s'.order
      && s'.lastTenant == t && s'.burst == s.burst
      && s'.currentBurst == (if s.lastTenant == t then s.currentBurst + 1 else 1)
      && (if s'.order[s'.next] == t
          then s'.currentBurst < s.burst && |s'.order| == n && Distance(s', Position(s', w)) == away
          else |s'.order| <= n && Distance(s', Position(s', w)) == away - 1)
  {
    var s', i := Dispatch(s, idx), Position(s, w);
    DispatchKeepsValid(s, idx);
    if |s.Queue(s.order[idx])| > 1 {
      StaysAt(s, w, idx);
      PositionUnique(s', w, i);
    } else {
      LeavesAt(s, w, idx);
      PositionUnique(s', w, if i < idx then i else i - 1);
    }
  }

  lemma SparesOthers(s: Sched, w: Tenant, idx: nat)
    requires idx < |s.order| && s.Queue(s.order[idx]) != [] && s.order[idx] != w
    ensures var s' := Dispatch(s, idx); s'.InFlight(w) == s.InFlight(w) && s'.maxFlight == s.maxFlight
  {
  }

  lemma PositionUnique(s: Sched, w: Tenant, i: nat)
    requires Valid(s) && w in s.order && i < |s.order| && s.order[i] == w
    ensures Position(s, w) == i
  {
  }

  // The job handed out comes from the first tenant in reach.
  lemma ServedTenant(s: Sched, w: Tenant)
    requires Valid(s) && w in s.order && s.InFlight(w) < s.maxFlight
    requires NextJob(s).1.Some? && NextJob(s).1.value.tenant != w
    ensures var k := Pick(s, 0).value;
      && NextJob(s).0 == Dispatch(s, s.At(k)) && s.order[s.At(k)] != w && !s.Skips(s.order[s.At(k)])
      && (!s.BurstSpent(w) ==>
            k < Distance(s, Position(s, w)) && Around(s.At(k), Position(s, w), |s.order|) == Distance(s, Position(s, w)) - k)
      && (k == 0 ==> Allowance(s) >= 1)
  {
    var k := Pick(s, 0).value;
    var t := s.order[s.At(k)];
    assert s.Queue(t)[0] in s.Queue(t);
    if !s.BurstSpent(w) { PickedBefore(s, w, k); }
  }

  // The scan stops at `w` if at nobody before it.
  lemma PickedBefore(s: Sched, w: Tenant, k: nat)
    requires Valid(s) && w in s.order && s.InFlight(w) < s.maxFlight && !s.BurstSpent(w)
    requires Pick(s, 0) == Some(k) && s.order[s.At(k)] != w
    ensures k < Distance(s, Position(s, w)) && Around(s.At(k), Position(s, w), |s.order|) == Distance(s, Position(s, w)) - k
  {
    var d := Distance(s, Position(s, w));
    assert s.At(d) == Position(s, w) && !s.Skips(w);
    assert k <= d;
  }

  // The arithmetic of one dispatch to another tenant `k` places after the
  // cursor: either the cursor stays with it, or it moves past it.
  lemma OneLess(spent: bool, d: nat, allowance: nat, b: nat, n: nat, k: nat, away: nat, current: nat, stays: bool, n': nat, allowance': nat)
    requires b >= 1 && current >= 1 && 1 <= away < n && 1 <= n' && allowance' <= b
    requires !spent ==> k < d && away == d - k && (k == 0 ==> allowance >= 1)
    requires stays ==> current < b && allowance' == b - current && (!spent && k == 0 ==> allowance' < allowance)
    ensures PatienceAt(false, if stays then away else away - 1, allowance', b, n') < PatienceAt(spent, d, allowance, b, n)
  {
    if spent {
      BurstsGrow(b, away - 1, n - 2);
    } else if k > 0 {
      BurstsGrow(b, away - 1, d - 2);
    }
  }

  // Serving another tenant uses up patience.
  lemma PatienceFalls(s: Sched, w: Tenant)
    requires Valid(s) && w in s.order && s.InFlight(w) < s.maxFlight
    requires NextJob(s).1.Some? && NextJob(s).1.value.tenant != w
    ensures var s' := NextJob(s).0;
      && Valid(s') && w in s'.order && s'.InFlight(w) == s.InFlight(w) && Patience(s', w) < Patience(s, w)
      && s'.maxFlight == s.maxFlight && s'.burst == s.burst
  {
    ServedTenant(s, w);
    var k := Pick(s, 0).value;
    var idx := s.At(k);
    var s' := Dispatch(s, idx);
    assert !s.Skips(s.order[idx]) && s.order[idx] != w;
    DistanceAfter(s, w, idx);
    SparesOthers(s, w, idx);
    assert !s'.BurstSpent(w);
    OneLess(s.BurstSpent(w), Distance(s, Position(s, w)), Allowance(s), s.burst, |s.order|, k,
            Around(idx, Position(s, w), |s.order|), s'.currentBurst, s'.order[s'.next] == s.order[idx],
            |s'.order|, Allowance(s'));
  }

  // Events that do not serve `w`.
  ghost predicate Bypasses(s: Sched, events: seq<Event>, w: Tenant)
    requires Valid(s)
  {
    events == [] ||
      var front, e := events[..|events| - 1], events[|events| - 1];
      var mid := Run(s, front).0;
      Bypasses(s, front, w) && (e.Ask? && NextJob(mid).1.Some? ==> NextJob(mid).1.value.tenant != w)
  }

  // The event makes a tenant newly pending.
  predicate IsNewcomer(s: Sched, e: Event) {
    e.Arrive? && e.job.tenant !in s.order
  }

  ghost function Newcomers(s: Sched, events: seq<Event>): nat
    requires Valid(s)
  {
    if events == [] then 0
    else
      var front, e := events[..|events| - 1], events[|events| - 1];
      Newcomers(s, front) + if IsNewcomer(Run(s, front).0, e) then 1 else 0
  }

  // A tenant that joins the end of the order costs `w` at most one burst.
  lemma PatienceOfNewcomer(s: Sched, job: TenantJob, w: Tenant)
    requires Valid(s) && w in s.order && job.tenant !in s.order
    ensures var s' := AddJob(s, job);
      && Valid(s') && w in s'.order && s'.InFlight(w) == s.InFlight(w) && s'.burst == s.burst && s'.maxFlight == s.maxFlight
      && Patience(s', w) <= Patience(s, w) + s.burst
  {
    AddKeepsValid(s, job);
    var s' := AddJob(s, job);
    assert s.Queue(job.tenant) == [];
    assert s'.order == s.order + [job.tenant];
    PositionUnique(s', w, Position(s, w));
    OneMore(s.BurstSpent(w), s'.BurstSpent(w), Distance(s, Position(s, w)), Distance(s', Position(s', w)),
            Allowance(s), s.burst, |s.order|);
  }

  lemma OneMore(spent: bool, spent': bool, d: nat, d': nat, allowance: nat, b: nat, n: nat)
    requires n >= 1 && d < n && (spent ==> spent') && (!spent && spent' ==> n == 1)
    requires d <= d' <= d + 1 && (d == 0 ==> d' == 0)
    ensures PatienceAt(spent', d', allowance, b, n + 1) <= PatienceAt(spent, d, allowance, b, n) + b
  {
    assert Bursts(b, n) == b + Bursts(b, n - 1);
    if d > 0 { assert Bursts(b, d) == b + Bursts(b, d - 1); }
  }

  lemma PatienceStep(s: Sched, e: Event, w: Tenant)
    requires Valid(s) && w in s.order && s.InFlight(w) < s.maxFlight
    requires e.Ask? && NextJob(s).1.Some? ==> NextJob(s).1.value.tenant != w
    ensures var (s', job) := Step(s, e);
      && Valid(s') && w in s'.order && s'.InFlight(w) < s'.maxFlight && s'.maxFlight == s.maxFlight && s'.burst == s.burst
      && Patience(s', w) + (if job.Some? then 1 else 0) <= Patience(s, w) + if IsNewcomer(s, e) then s.burst else 0
  {
    StepKeepsValid(s, e);
    if e.Ask? {
      if NextJob(s).1.Some? { PatienceFalls(s, w); } else { RefusesIff(s); }
    } else if IsNewcomer(s, e) {
      PatienceOfNewcomer(s, e.job, w);
    } else {
      var s' := Step(s, e).0;
      assert s'.order == s.order && s'.next == s.next;
      PositionUnique(s', w, Position(s, w));
    }
  }

  // What `w` may still have to wait for after the events, with what it has waited.
  ghost predicate WaitOk(s: Sched, end: Sched, out: nat, newcomers: nat, w: Tenant) {
    && Valid(s) && Valid(end) && w in s.order && w in end.order && end.InFlight(w) < end.maxFlight && end.burst == s.burst
    && out + Patience(end, w) <= Patience(s, w) + Bursts(s.burst, newcomers)
  }

  lemma WaitStep(s: Sched, mid: Sched, before: nat, came: nat, w: Tenant, e: Event)
    returns (end: Sched, out: nat, newcomers: nat)
    requires WaitOk(s, mid, before, came, w)
    requires e.Ask? && NextJob(mid).1.Some? ==> NextJob(mid).1.value.tenant != w
    ensures end == Step(mid, e).0 && out == before + (if Step(mid, e).1.Some? then 1 else 0)
    ensures newcomers == came + if IsNewcomer(mid, e) then 1 else 0
    ensures WaitOk(s, end, out, newcomers, w)
  {
    PatienceStep(mid, e, w);
    end, out := Step(mid, e).0, before + if Step(mid, e).1.Some? then 1 else 0;
    newcomers := came + if IsNewcomer(mid, e) then 1 else 0;
  }

  lemma {:induction false} PatienceOverRun(s: Sched, events: seq<Event>, w: Tenant) returns (end: Sched, out: nat, newcomers: nat)
    requires Valid(s) && w in s.order && s.InFlight(w) < s.maxFlight && Bypasses(s, events, w)
    ensures end == Run(s, events).0 && out == |Run(s, events).1| && newcomers == Newcomers(s, events)
    ensures WaitOk(s, end, out, newcomers, w)
  {
    if events == [] {
      return s, 0, 0;
    }
    var e := events[|events| - 1];
    var mid, before, came := PatienceOverRun(s, events[..|events| - 1], w);
    end, out, newcomers := WaitStep(s, mid, before, came, w, e);
    RunLast(s, events);
  }

  lemma RunLast(s: Sched, events: seq<Event>)
    requires Valid(s) && events != []
    ensures var front, e := events[..|events| - 1], events[|events| - 1];
      var mid := Run(s, front).0;
      && Run(s, events).0 == Step(mid, e).0
      && |Run(s, events).1| == |Run(s, front).1| + (if Step(mid, e).1.Some? then 1 else 0)
      && Newcomers(s, events) == Newcomers(s, front) + if IsNewcomer(mid, e) then 1 else 0
  {
  }

  // No starvation but by newcomers: a queued tenant below its in-flight cap sees
  // at most one burst of jobs before its own for each other queued tenant, and
  // one more for each time a tenant becomes newly pending behind it, whatever
  // arrivals and completions interleave.
  lemma BoundedWait(s: Sched, events: seq<Event>, w: Tenant)
    requires Valid(s) && w in s.order && s.InFlight(w) < s.maxFlight && Bypasses(s, events, w)
    ensures |Run(s, events).1| <= s.burst * (|s.order| - 1 + Newcomers(s, events))
  {
    var end, out, newcomers := PatienceOverRun(s, events, w);
    WaitBounded(s, end, out, newcomers, w);
  }

  lemma WaitBounded(s: Sched, end: Sched, out: nat, newcomers: nat, w: Tenant)
    requires WaitOk(s, end, out, newcomers, w)
    ensures out <= s.burst * (|s.order| - 1 + newcomers)
  {
    PatienceBounded(s, w);
    BurstsSum(out, Patience(s, w), s.burst, |s.order| - 1, newcomers);
  }

  lemma BurstsSum(out: nat, patience: nat, b: nat, m: nat, n: nat)
    requires out <= patience + Bursts(b, n) && patience <= b * m
    ensures out <= b * (m + n)
  {
    BurstsProduct(b, n);
    assert b * (m + n) == b * m + b * n;
  }

  // While such a tenant waits, the scheduler only refuses when everyone else is
  // at its cap and the tenant itself has just spent its burst.
  lemma RefusedByOthers(s: Sched, events: seq<Event>, w: Tenant)
    requires Valid(s) && w in s.order && s.InFlight(w) < s.maxFlight && Bypasses(s, events, w)
    ensures var end := Run(s, events).0;
      NextJob(end).1.None? ==>
        end.BurstSpent(w) && forall t :: t in end.order && t != w ==> end.InFlight(t) >= end.maxFlight
  {
    var end, _, _ := PatienceOverRun(s, events, w);
    RefusesIff(end);
  }

  // ----------------------------------------------- why newcomers must count

  // Two others are queued behind `w`, and the scheduler is idle.
  ghost predicate Lined(s: Sched, w: Tenant, x: TenantJob, y: TenantJob) {
    && Valid(s)
    && s.order == [w, x.tenant, y.tenant]
    && s.Queue(x.tenant) == [x] && s.Queue(y.tenant) == [y]
    && s.InFlight(w) == s.InFlight(x.tenant) == s.InFlight(y.tenant) == 0
  }

  // The cursor has gone past `w`.
  ghost predicate Churning(s: Sched, w: Tenant, x: TenantJob, y: TenantJob) {
    Lined(s, w, x, y) && s.next == 1 && s.lastTenant != x.tenant
  }

  // The first of them is served, submits again and finishes: now it stands
  // behind the second, and the cursor still has not reached `w`.
  lemma ChurnRound(s: Sched, w: Tenant, x: TenantJob, y: TenantJob) returns (end: Sched)
    requires Churning(s, w, x, y)
    ensures NextJob(s).1 == Some(x) && end == Completed(AddJob(NextJob(s).0, x), x.tenant)
    ensures Churning(end, w, y, x)
  {
    assert s.order[0] != s.order[1] && s.order[0] != s.order[2] && s.order[1] != s.order[2];
    assert !s.Skips(x.tenant) && s.At(0) == 1;
    NextKeepsValid(s);
    var s1 := NextJob(s).0;
    WithoutOne(s.order, 1);
    assert s1.order == [w, y.tenant] && s1.next == 1;
    AddKeepsValid(s1, x);
    CompleteKeepsValid(AddJob(s1, x), x.tenant);
    end := Completed(AddJob(s1, x), x.tenant);
  }

  lemma RunSnoc(s: Sched, events: seq<Event>, e: Event)
    requires Valid(s)
    ensures var (mid, out) := Run(s, events);
      Run(s, events + [e]) == (Step(mid, e).0, if Step(mid, e).1.Some? then out + [Step(mid, e).1.value] else out)
  {
    assert (events + [e])[..|events|] == events;
  }

  // The run of such a round.
  lemma RunChurn(s: Sched, events: seq<Event>, x: TenantJob) returns (longer: seq<Event>)
    requires Valid(s) && NextJob(Run(s, events).0).1 == Some(x)
    ensures var (mid, out) := Run(s, events);
      Run(s, longer) == (Completed(AddJob(NextJob(mid).0, x), x.tenant), out + [x])
  {
    longer := events + [Ask] + [Arrive(x)] + [Finish(x.tenant)];
    RunSnoc(s, events, Ask);
    RunSnoc(s, events + [Ask], Arrive(x));
    RunSnoc(s, events + [Ask] + [Arrive(x)], Finish(x.tenant));
  }

  // The jobs that pass by, none of them for `w`.
  ghost predicate AllOthers(jobs: seq<TenantJob>, n: nat, w: Tenant) {
    |jobs| == n && forall j :: j in jobs ==> j.tenant != w
  }

  lemma {:induction false} ChurnContinues(s: Sched, w: Tenant, x: TenantJob, y: TenantJob, n: nat)
    returns (events: seq<Event>, end: Sched, out: seq<TenantJob>, first: TenantJob, second: TenantJob)
    requires Churning(s, w, x, y) && x.tenant != w && y.tenant != w
    ensures (end, out) == Run(s, events) && AllOthers(out, n, w)
    ensures Churning(end, w, first, second) && first.tenant != w && second.tenant != w
  {
    if n == 0 {
      return [], s, [], x, y;
    }
    var before, mid, passed;
    before, mid, passed, second, first := ChurnContinues(s, w, x, y, n - 1);
    end := ChurnRound(mid, w, second, first);
    events := RunChurn(s, before, second);
    out := passed + [second];
  }

  // `w` has one job queued and `k` of its burst used.
  ghost predicate Warming(s: Sched, k: nat, w: TenantJob, x: TenantJob, y: TenantJob) {
    && Lined(s, w.tenant, x, y) && s.Queue(w.tenant) == [w]
    && k <= s.burst && s.next == (if k < s.burst then 0 else 1)
    && (if k == 0 then s.currentBurst == 0 else s.lastTenant == w.tenant && s.currentBurst == k)
  }

  // `w` submits another job, is served and finishes.
  lemma WarmRound(s: Sched, k: nat, w: TenantJob, x: TenantJob, y: TenantJob) returns (end: Sched)
    requires Warming(s, k, w, x, y) && k < s.burst
    ensures Valid(AddJob(s, w)) && end == Completed(NextJob(AddJob(s, w)).0, w.tenant)
    ensures Warming(end, k + 1, w, x, y) && end.burst == s.burst
  {
    var s1 := AddJob(s, w);
    AddKeepsValid(s, w);
    assert s.order[0] != s.order[1] && s.order[0] != s.order[2];
    assert s1.order == s.order && s1.At(0) == 0 && !s1.Skips(w.tenant);
    NextKeepsValid(s1);
    CompleteKeepsValid(NextJob(s1).0, w.tenant);
    end := Completed(NextJob(s1).0, w.tenant);
  }

  lemma RunArrive(s: Sched, events: seq<Event>, job: TenantJob, longer: seq<Event>)
    requires Valid(s) && longer == events + [Arrive(job)]
    ensures Run(s, longer).0 == AddJob(Run(s, events).0, job)
  {
    RunSnoc(s, events, Arrive(job));
  }

  lemma RunServed(s: Sched, events: seq<Event>, t: Tenant, longer: seq<Event>)
    requires Valid(s) && longer == events + [Ask] + [Finish(t)]
    ensures Run(s, longer).0 == Completed(NextJob(Run(s, events).0).0, t)
  {
    RunSnoc(s, events, Ask);
    RunSnoc(s, events + [Ask], Finish(t));
  }

  // The run of such a round.
  lemma RunRound(s: Sched, events: seq<Event>, w: TenantJob) returns (longer: seq<Event>)
    requires Valid(s) && Valid(AddJob(Run(s, events).0, w))
    ensures Run(s, longer).0 == Completed(NextJob(AddJob(Run(s, events).0, w)).0, w.tenant)
  {
    longer := events + [Arrive(w)] + [Ask] + [Finish(w.tenant)];
    RunArrive(s, events, w, events + [Arrive(w)]);
    RunServed(s, events + [Arrive(w)], w.tenant, longer);
  }

  lemma {:induction false} WarmContinues(s: Sched, k: nat, w: TenantJob, x: TenantJob, y: TenantJob)
    returns (events: seq<Event>, end: Sched)
    requires Warming(s, 0, w, x, y) && k <= s.burst
    ensures end == Run(s, events).0 && Warming(end, k, w, x, y) && end.burst == s.burst
  {
    if k == 0 {
      return [], s;
    }
    var before, mid := WarmContinues(s, k - 1, w, x, y);
    end := WarmRound(mid, k - 1, w, x, y);
    events := RunRound(s, before, w);
  }

  lemma Lines(s: Sched, w: TenantJob, x: TenantJob, y: TenantJob)
    requires s.burst >= 1 && s.maxFlight >= 1 && s == Empty(s.burst, s.maxFlight)
    requires w.tenant != x.tenant && w.tenant != y.tenant && x.tenant != y.tenant
    ensures Warming(AddJob(AddJob(AddJob(s, w), x), y), 0, w, x, y)
  {
    AddKeepsValid(s, w);
    var s1 := AddJob(s, w);
    assert s1.order == [w.tenant] && s1.Queue(w.tenant) == [w];
    AddKeepsValid(s1, x);
    var s2 := AddJob(s1, x);
    assert s2.order == [w.tenant, x.tenant] && s2.Queue(w.tenant) == [w] && s2.Queue(x.tenant) == [x];
    AddKeepsValid(s2, y);
  }

  // The empty scheduler after three arrivals and one burst for `w`.
  lemma WarmsUp(empty: Sched, w: TenantJob, x: TenantJob, y: TenantJob) returns (warm: seq<Event>)
    requires empty.burst >= 1 && empty.maxFlight >= 1 && empty == Empty(empty.burst, empty.maxFlight)
    requires w.tenant != x.tenant && w.tenant != y.tenant && x.tenant != y.tenant
    ensures Churning(Run(empty, warm).0, w.tenant, x, y)
  {
    var one, two, three := [Arrive(w)], [Arrive(w), Arrive(x)], [Arrive(w), Arrive(x), Arrive(y)];
    RunArrive(empty, [], w, one);
    RunArrive(empty, one, x, two);
    RunArrive(empty, two, y, three);
    Lines(empty, w, x, y);
    var s := Run(empty, three).0;
    var rounds, _ := WarmContinues(s, s.burst, w, x, y);
    warm := three + rounds;
    RunAppend(empty, three, rounds);
  }

  lemma {:induction false} RunAppend(s: Sched, events: seq<Event>, more: seq<Event>)
    requires Valid(s)
    ensures Run(s, events + more).0 == Run(Run(s, events).0, more).0
    ensures Run(s, events + more).1 == Run(s, events).1 + Run(Run(s, events).0, more).1
  {
    if more == [] {
      assert events + more == events;
    } else {
      var front, e := more[..|more| - 1], more[|more| - 1];
      RunAppend(s, events, front);
      assert more == front + [e] && events + more == events + front + [e];
      var mid, end := Run(s, events), Run(Run(s, events).0, front);
      RunSnoc(s, events + front, e);
      RunSnoc(mid.0, front, e);
      SnocAppends(mid.1, end.1, Step(end.0, e).1);
    }
  }

  lemma SnocAppends(a: seq<TenantJob>, b: seq<TenantJob>, job: Option<TenantJob>)
    ensures job.Some? ==> (a + b) + [job.value] == a + (b + [job.value])
  {
  }

  // Without counting them there is no bound, whatever the caps: from the empty
  // scheduler a tenant can be brought to wait, below its cap, while two others
  // that submit again as soon as they are served pass it by any number of times.
  lemma ChurnStarves(burst: nat, maxFlight: nat, w: TenantJob, x: TenantJob, y: TenantJob, n: nat)
    returns (warm: seq<Event>, churn: seq<Event>)
    requires burst >= 1 && maxFlight >= 1
    requires w.tenant != x.tenant && w.tenant != y.tenant && x.tenant != y.tenant
    ensures var s := Run(Empty(burst, maxFlight), warm).0;
      var (end, out) := Run(s, churn);
      && Run(Empty(burst, maxFlight), warm + churn).0 == end
      && w.tenant in s.order && s.InFlight(w.tenant) < s.maxFlight
      && |out| == n && (forall j :: j in out ==> j.tenant != w.tenant)
      && w.tenant in end.order && end.InFlight(w.tenant) < end.maxFlight
  {
    warm := WarmsUp(Empty(burst, maxFlight), w, x, y);
    var end, out, first, second;
    churn, end, out, first, second := ChurnContinues(Run(Empty(burst, maxFlight), warm).0, w.tenant, x, y, n);
    RunAppend(Empty(burst, maxFlight), warm, churn);
  }
}
