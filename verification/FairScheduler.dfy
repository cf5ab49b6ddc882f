// The tenant-fair job scheduler of a channel worker: a wrapping round-robin with
// a burst cap and a per-tenant in-flight cap.
module FairScheduler {
  import opened Wrappers

  datatype Tenant = Tenant(id: string)

  datatype TenantJob = TenantJob(tenant: Tenant, payload: nat)

  // The scheduler's fields as one value.
  datatype Sched = Sched(
    burst: nat,
    maxFlight: nat,
    inflight: map<Tenant, nat>,
    pending: map<Tenant, seq<TenantJob>>,
    order: seq<Tenant>,
    next: nat,
    lastTenant: Tenant,
    currentBurst: nat)
  {
    function InFlight(t: Tenant): nat {
      if t in inflight then inflight[t] else 0
    }

    function Queue(t: Tenant): seq<TenantJob> {
      if t in pending then pending[t] else []
    }

    // The queue position `k` places after the cursor.
    function At(k: nat): nat
      requires next < |order| && k < |order|
      ensures At(k) < |order|
    {
      if next + k < |order| then next + k else next + k - |order|
    }

    // The last tenant has used its burst while others wait.
    predicate BurstSpent(t: Tenant) {
      lastTenant == t && currentBurst >= burst && |order| > 1
    }

    // nextJob passes this tenant over.
    predicate Skips(t: Tenant) {
      Queue(t) == [] || InFlight(t) >= maxFlight || BurstSpent(t)
    }
  }

  ghost predicate Distinct(order: seq<Tenant>) {
    forall i, j :: 0 <= i < j < |order| ==> order[i] != order[j]
  }

  // The representation invariant.
  ghost predicate Valid(s: Sched) {
    && s.burst >= 1 && s.maxFlight >= 1
    && Distinct(s.order)
    && (forall t :: t in s.order <==> s.Queue(t) != [])
    && s.next < (if s.order == [] then 1 else |s.order|)
    && (forall t :: s.InFlight(t) <= s.maxFlight)
    && (forall t, j :: j in s.Queue(t) ==> j.tenant == t)
  }

  // No tenant queued, none in flight.
  function Empty(burst: nat, maxFlight: nat): (s: Sched)
    requires burst >= 1 && maxFlight >= 1
    ensures Valid(s)
  {
    Sched(burst, maxFlight, map[], map[], [], 0, Tenant(""), 0)
  }

  // ----------------------------------------------------------- operations

  function AddJob(s: Sched, job: TenantJob): Sched {
    s.(order := if s.Queue(job.tenant) == [] then s.order + [job.tenant] else s.order,
       pending := s.pending[job.tenant := s.Queue(job.tenant) + [job]])
  }

  function Completed(s: Sched, t: Tenant): Sched {
    if s.InFlight(t) > 0 then s.(inflight := s.inflight[t := s.InFlight(t) - 1]) else s
  }

  function Without(order: seq<Tenant>, t: Tenant): seq<Tenant> {
    if order == [] then []
    else if order[|order| - 1] == t then Without(order[..|order| - 1], t)
    else Without(order[..|order| - 1], t) + [order[|order| - 1]]
  }

  // The first offset from the cursor whose tenant is not passed over.
  function Pick(s: Sched, k: nat): (r: Option<nat>)
    requires s.next < |s.order| && k <= |s.order|
    ensures r.Some? ==> k <= r.value < |s.order| && !s.Skips(s.order[s.At(r.value)])
    ensures forall i :: k <= i < (if r.Some? then r.value else |s.order|) ==> s.Skips(s.order[s.At(i)])
    decreases |s.order| - k
  {
    if k == |s.order| then None
    else if s.Skips(s.order[s.At(k)]) then Pick(s, k + 1)
    else Some(k)
  }

  // Hands out the first job of the tenant and charges its burst.
  function Charge(s: Sched, t: Tenant): Sched
    requires s.Queue(t) != []
  {
    s.(pending := s.pending[t := s.Queue(t)[1..]],
       inflight := s.inflight[t := s.InFlight(t) + 1],
       currentBurst := if s.lastTenant == t then s.currentBurst + 1 else 1,
       lastTenant := t)
  }

  // Where the cursor goes: it stays while the burst lasts, moves on when it is
  // spent, and stays in place when the drained tenant leaves the order.
  function Advance(s: Sched, idx: nat): Sched
    requires idx < |s.order|
  {
    var t := s.order[idx];
    if s.Queue(t) == [] then
      var order := Without(s.order, t);
      s.(order := order, next := if order == [] || idx >= |order| then 0 else idx)
    else if s.currentBurst < s.burst then s.(next := idx)
    else s.(next := if idx + 1 == |s.order| then 0 else idx + 1)
  }

  function Dispatch(s: Sched, idx: nat): Sched
    requires idx < |s.order| && s.Queue(s.order[idx]) != []
  {
    Advance(Charge(s, s.order[idx]), idx)
  }

  function NextJob(s: Sched): (Sched, Option<TenantJob>)
    requires s.order == [] || s.next < |s.order|
  {
    if s.order == [] then (s, None)
    else
      match Pick(s, 0)
      case None => (s, None)
      case Some(k) => (Dispatch(s, s.At(k)), Some(s.Queue(s.order[s.At(k)])[0]))
  }

  // ------------------------------------------------------------- the class

  class Scheduler {
    const burst: nat
    const maxFlight: nat
    var inflight: map<Tenant, nat>
    var pending: map<Tenant, seq<TenantJob>>
    var order: seq<Tenant>
    var next: nat
    var lastTenant: Tenant
    var currentBurst: nat

    ghost function State(): Sched
      reads this
    {
      Sched(burst, maxFlight, inflight, pending, order, next, lastTenant, currentBurst)
    }

    constructor (burst: int, maxFlight: int)
      ensures State() == Empty(if burst <= 0 then 1 else burst, if maxFlight <= 0 then 1 else maxFlight)
      ensures Valid(State())
    {
      this.burst := if burst <= 0 then 1 else burst;
      this.maxFlight := if maxFlight <= 0 then 1 else maxFlight;
      inflight, pending, order, next := map[], map[], [], 0;
      lastTenant, currentBurst := Tenant(""), 0;
    }

    method Add(job: TenantJob)
      requires Valid(State())
      modifies this
      ensures State() == AddJob(old(State()), job) && Valid(State())
    {
      AddKeepsValid(State(), job);
      var t := job.tenant;
      var jobs := if t in pending then pending[t] else [];
      if |jobs| == 0 {
        order := order + [t];
      }
      pending := pending[t := jobs + [job]];
    }

    method Complete(tenant: Tenant)
      requires Valid(State())
      modifies this
      ensures State() == Completed(old(State()), tenant) && Valid(State())
    {
      CompleteKeepsValid(State(), tenant);
      if tenant in inflight && inflight[tenant] > 0 {
        inflight := inflight[tenant := inflight[tenant] - 1];
      }
    }

    // The dispatching half of nextJob: the cursor stops at the tenant while its
    // burst lasts, and moves on when the tenant is drained or its burst is spent.
    method Take(at: nat) returns (job: TenantJob)
      requires at < |order| && State().Queue(order[at]) != []
      modifies this
      ensures State() == Dispatch(old(State()), at)
      ensures job == old(State().Queue(order[at])[0])
    {
      ghost var s := State();
      var idx := at;
      var t := order[idx];
      var jobs := pending[t];
      job := jobs[0];
      pending, inflight := pending[t := jobs[1..]], inflight[t := (if t in inflight then inflight[t] else 0) + 1];
      if lastTenant == t {
        currentBurst := currentBurst + 1;
      } else {
        lastTenant, currentBurst := t, 1;
      }
      assert State() == Charge(s, t);
      if |pending[t]| == 0 {
        order := RemoveTenant(order, t);
        if |order| > 0 {
          if idx >= |order| {
            idx := 0;
          }
          Wraps(idx, |order|);
          next := idx % |order|;
        } else {
          next := 0;
        }
      } else if lastTenant == t && currentBurst < burst {
        next := idx;
      } else {
        Wraps(idx, |order|);
        next := (idx + 1) % |order|;
      }
    }

    // The scanning half: moves the cursor past every tenant that must wait and
    // reports how many it passed.
    method Scan() returns (checked: nat)
      requires next < |order|
      modifies this`next
      ensures checked <= |order|
      ensures Pick(old(State()), 0) == if checked == |order| then None else Some(checked)
      ensures next == if checked == |order| then old(next) else old(State()).At(checked)
    {
      ghost var s := State();
      checked := 0;
      while checked < |order|
        invariant checked <= |order|
        invariant next == if checked == |order| then s.next else s.At(checked)
        invariant Pick(s, 0) == Pick(s, checked)
      {
        Wraps(next, |order|);
        var idx := next % |order|;
        assert idx == s.At(checked);
        var t := order[idx];
        var jobs := if t in pending then pending[t] else [];
        var flying := if t in inflight then inflight[t] else 0;
        if |jobs| == 0 || flying >= maxFlight {
          next := (idx + 1) % |order|;
        } else if lastTenant == t && currentBurst >= burst && |order| > 1 {
          next := (idx + 1) % |order|;
        } else {
          return;
        }
        checked := checked + 1;
      }
    }

    method Next() returns (job: Option<TenantJob>)
      requires Valid(State())
      modifies this
      ensures (State(), job) == NextJob(old(State())) && Valid(State())
    {
      NextKeepsValid(State());
      if |order| == 0 {
        return None;
      }
      ghost var s := State();
      var checked := Scan();
      if checked < |order| {
        CursorOverwritten(s, next, next);
        var first := Take(next);
        job := Some(first);
        assert NextJob(s) == (Dispatch(s, s.At(checked)), job);
      } else {
        job := None;
        assert NextJob(s) == (s, None);
      }
    }
  }

  lemma CursorOverwritten(s: Sched, next: nat, idx: nat)
    requires idx < |s.order| && s.Queue(s.order[idx]) != []
    ensures Dispatch(s.(next := next), idx) == Dispatch(s, idx)
  {
  }

  lemma Wraps(i: nat, n: nat)
    requires i < n
    ensures i % n == i
    ensures (i + 1) % n == if i + 1 == n then 0 else i + 1
  {
  }

  method RemoveTenant(order: seq<Tenant>, tenant: Tenant) returns (out: seq<Tenant>)
    ensures out == Without(order, tenant)
  {
    out := [];
    for i := 0 to |order|
      invariant out == Without(order[..i], tenant)
    {
      assert order[..i + 1][..i] == order[..i];
      if order[i] != tenant {
        out := out + [order[i]];
      }
    }
    assert order[..|order|] == order;
  }

  // ------------------------------------------------------ the invariant holds

  lemma {:induction false} WithoutOne(order: seq<Tenant>, i: nat)
    requires Distinct(order) && i < |order|
    ensures Without(order, order[i]) == order[..i] + order[i + 1..]
  {
    var n := |order| - 1;
    var t := order[i];
    if i == n {
      WithoutAbsent(order[..n], t);
      assert order[..i] + order[i + 1..] == order[..n];
    } else {
      assert order[..n][i] == t;
      WithoutOne(order[..n], i);
      assert order[..n][..i] + order[..n][i + 1..] + [order[n]] == order[..i] + order[i + 1..];
    }
  }

  lemma {:induction false} WithoutAbsent(order: seq<Tenant>, t: Tenant)
    requires t !in order
    ensures Without(order, t) == order
  {
    if order != [] {
      WithoutAbsent(order[..|order| - 1], t);
      assert order == order[..|order| - 1] + [order[|order| - 1]];
    }
  }

  // Valid, tenant by tenant.
  ghost predicate TenantOk(s: Sched, t: Tenant) {
    && (t in s.order <==> s.Queue(t) != [])
    && s.InFlight(t) <= s.maxFlight
    && (forall j :: j in s.Queue(t) ==> j.tenant == t)
  }

  ghost predicate FieldsOk(s: Sched) {
    && s.burst >= 1 && s.maxFlight >= 1
    && Distinct(s.order)
    && s.next < (if s.order == [] then 1 else |s.order|)
  }

  lemma ByTenant(s: Sched)
    ensures Valid(s) ==> forall t :: TenantOk(s, t)
    ensures FieldsOk(s) && (forall t :: TenantOk(s, t)) ==> Valid(s)
  {
    if forall t :: TenantOk(s, t) {
      forall t ensures (t in s.order <==> s.Queue(t) != []) && s.InFlight(t) <= s.maxFlight {
        assert TenantOk(s, t);
      }
      forall t, j | j in s.Queue(t) ensures j.tenant == t {
        assert TenantOk(s, t);
      }
    }
  }

  lemma AddKeepsValid(s: Sched, job: TenantJob)
    requires Valid(s)
    ensures Valid(AddJob(s, job))
  {
    var s' := AddJob(s, job);
    ByTenant(s);
    ByTenant(s');
    forall t ensures TenantOk(s', t) {
      assert TenantOk(s, t);
    }
  }

  lemma CompleteKeepsValid(s: Sched, t: Tenant)
    requires Valid(s)
    ensures Valid(Completed(s, t))
  {
    ByTenant(s);
    ByTenant(Completed(s, t));
    forall u ensures TenantOk(Completed(s, t), u) {
      assert TenantOk(s, u);
    }
  }

  lemma DispatchKeepsValid(s: Sched, idx: nat)
    requires Valid(s) && idx < |s.order| && !s.Skips(s.order[idx])
    ensures Valid(Dispatch(s, idx))
  {
    var s' := Dispatch(s, idx);
    ByTenant(s');
    DispatchFields(s, idx);
    forall u ensures TenantOk(s', u) { DispatchTenant(s, idx, u); }
  }

  lemma DispatchFields(s: Sched, idx: nat)
    requires Valid(s) && idx < |s.order| && !s.Skips(s.order[idx])
    ensures FieldsOk(Dispatch(s, idx))
  {
    WithoutOne(s.order, idx);
    StaysDistinct(s.order, idx);
  }

  lemma StaysDistinct(order: seq<Tenant>, i: nat)
    requires Distinct(order) && i < |order|
    ensures Distinct(order[..i] + order[i + 1..])
  {
  }

  lemma DispatchTenant(s: Sched, idx: nat, u: Tenant)
    requires Valid(s) && idx < |s.order| && !s.Skips(s.order[idx])
    ensures TenantOk(Dispatch(s, idx), u)
  {
    var s', t := Dispatch(s, idx), s.order[idx];
    ByTenant(s);
    WithoutOne(s.order, idx);
    assert TenantOk(s, u);
    if u != t {
      assert s'.Queue(u) == s.Queue(u);
      assert u in s'.order <==> u in s.order;
    }
  }

  lemma NextKeepsValid(s: Sched)
    requires Valid(s)
    ensures Valid(NextJob(s).0)
  {
    if s.order != [] && Pick(s, 0).Some? { DispatchKeepsValid(s, s.At(Pick(s, 0).value)); }
  }
}
