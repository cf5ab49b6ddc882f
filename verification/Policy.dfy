// Delivery policy resolution: rows of four scopes, folded from the widest to
// the narrowest by the service, and read as a COALESCE chain by the claim and
// promotion queries.
module Policy {
  import opened Wrappers
  import opened Rows

  datatype PolicyRow = PolicyRow(
    tenant: Option<string>,
    channel: Option<Channel>,
    paused: Option<bool>,
    failover: Option<bool>,
    scheduling: Option<bool>,
    replayAllowed: Option<bool>,
    maxAttempts: Option<int>,
    baseSeconds: Option<int>,
    maxSeconds: Option<int>,
    createdAt: Time,
    updatedAt: Time)

  datatype Resolved = Resolved(
    paused: bool,
    failover: bool,
    scheduling: bool,
    replayAllowed: bool,
    maxAttempts: Option<int>,
    baseSeconds: Option<int>,
    maxSeconds: Option<int>)

  const DEFAULTS: Resolved := Resolved(false, false, true, true, None, None, None)

  // ------------------------------------------------- the first value that is set

  function First<T>(rows: seq<PolicyRow>, field: PolicyRow -> Option<T>, fallback: T): T {
    if rows == [] then fallback else field(rows[0]).GetOr(First(rows[1..], field, fallback))
  }

  lemma {:induction false} FirstIsUnshadowed<T>(rows: seq<PolicyRow>, field: PolicyRow -> Option<T>, fallback: T, i: nat)
    requires i <= |rows| && forall j :: 0 <= j < i ==> field(rows[j]).None?
    requires i < |rows| ==> field(rows[i]).Some?
    ensures First(rows, field, fallback) == if i < |rows| then field(rows[i]).value else fallback
  {
    if i > 0 {
      FirstIsUnshadowed(rows[1..], field, fallback, i - 1);
    }
  }

  lemma {:induction false} FirstPosition<T>(rows: seq<PolicyRow>, field: PolicyRow -> Option<T>) returns (i: nat)
    ensures i <= |rows| && forall j :: 0 <= j < i ==> field(rows[j]).None?
    ensures i < |rows| ==> field(rows[i]).Some?
  {
    i := 0;
    while i < |rows| && field(rows[i]).None?
      invariant i <= |rows| && forall j :: 0 <= j < i ==> field(rows[j]).None?
    {
      i := i + 1;
    }
  }

  function PausedOf(r: PolicyRow): Option<bool> { r.paused }
  function FailoverOf(r: PolicyRow): Option<bool> { r.failover }
  function SchedulingOf(r: PolicyRow): Option<bool> { r.scheduling }
  function ReplayAllowedOf(r: PolicyRow): Option<bool> { r.replayAllowed }
  function Lifted(v: Option<int>): Option<Option<int>> { if v.Some? then Some(v) else None }
  function MaxAttemptsOf(r: PolicyRow): Option<Option<int>> { Lifted(r.maxAttempts) }
  function BaseSecondsOf(r: PolicyRow): Option<Option<int>> { Lifted(r.baseSeconds) }
  function MaxSecondsOf(r: PolicyRow): Option<Option<int>> { Lifted(r.maxSeconds) }

  // Field by field, the first value set in precedence order.
  function FirstOfEach(rows: seq<PolicyRow>, d: Resolved): Resolved {
    Resolved(
      First(rows, PausedOf, d.paused),
      First(rows, FailoverOf, d.failover),
      First(rows, SchedulingOf, d.scheduling),
      First(rows, ReplayAllowedOf, d.replayAllowed),
      First(rows, MaxAttemptsOf, d.maxAttempts),
      First(rows, BaseSecondsOf, d.baseSeconds),
      First(rows, MaxSecondsOf, d.maxSeconds))
  }

  // ---------------------------------------------------------- the reverse fold

  // One row written over what the rows behind it gave.
  function Overridden(d: Resolved, row: PolicyRow): Resolved {
    Resolved(
      row.paused.GetOr(d.paused),
      row.failover.GetOr(d.failover),
      row.scheduling.GetOr(d.scheduling),
      row.replayAllowed.GetOr(d.replayAllowed),
      if row.maxAttempts.Some? then row.maxAttempts else d.maxAttempts,
      if row.baseSeconds.Some? then row.baseSeconds else d.baseSeconds,
      if row.maxSeconds.Some? then row.maxSeconds else d.maxSeconds)
  }

  // The policy being resolved, behind a pointer.
  class Resolution {
    var value: Resolved

    constructor ()
      ensures value == DEFAULTS
    {
      value := DEFAULTS;
    }

    // Applying a row to what the rows behind it resolved to gives what all of
    // them resolve to together: a column that is set overwrites, a NULL leaves it.
    method ApplyPolicyRow(row: PolicyRow)
      modifies this
      ensures forall rows, d :: old(value) == FirstOfEach(rows, d) ==> value == FirstOfEach([row] + rows, d)
    {
      var was := value;
      value := value.(paused := row.paused.GetOr(value.paused));
      value := value.(failover := row.failover.GetOr(value.failover));
      value := value.(scheduling := row.scheduling.GetOr(value.scheduling));
      value := value.(replayAllowed := row.replayAllowed.GetOr(value.replayAllowed));
      value := value.(maxAttempts := if row.maxAttempts.Some? then row.maxAttempts else value.maxAttempts);
      value := value.(baseSeconds := if row.baseSeconds.Some? then row.baseSeconds else value.baseSeconds);
      value := value.(maxSeconds := if row.maxSeconds.Some? then row.maxSeconds else value.maxSeconds);
      assert value == Overridden(was, row);
      AppliedIsFirst(row, was);
    }
  }

  lemma AppliedIsFirst(row: PolicyRow, before: Resolved)
    ensures forall rows, d :: before == FirstOfEach(rows, d) ==> Overridden(before, row) == FirstOfEach([row] + rows, d)
  {
    forall rows, d | before == FirstOfEach(rows, d) ensures Overridden(before, row) == FirstOfEach([row] + rows, d) {
      RowInFront(row, rows, d);
    }
  }

  lemma ColumnInFront<T>(row: PolicyRow, rows: seq<PolicyRow>, field: PolicyRow -> Option<T>, fallback: T)
    ensures First([row] + rows, field, fallback) == field(row).GetOr(First(rows, field, fallback))
  {
    assert ([row] + rows)[1..] == rows;
  }

  lemma RowInFront(row: PolicyRow, rows: seq<PolicyRow>, d: Resolved)
    ensures FirstOfEach([row] + rows, d) == Overridden(FirstOfEach(rows, d), row)
  {
    ColumnInFront(row, rows, PausedOf, d.paused);
    ColumnInFront(row, rows, FailoverOf, d.failover);
    ColumnInFront(row, rows, SchedulingOf, d.scheduling);
    ColumnInFront(row, rows, ReplayAllowedOf, d.replayAllowed);
    ColumnInFront(row, rows, MaxAttemptsOf, d.maxAttempts);
    ColumnInFront(row, rows, BaseSecondsOf, d.baseSeconds);
    ColumnInFront(row, rows, MaxSecondsOf, d.maxSeconds);
  }

  // What a column of the rows, taken in order, sets first.
  ghost predicate SetsFirst<T(!new)>(rows: seq<PolicyRow>, column: PolicyRow -> Option<T>, answer: Option<T>) {
    if answer.None? then forall j :: 0 <= j < |rows| ==> column(rows[j]).None?
    else exists i :: 0 <= i < |rows| && column(rows[i]) == answer && forall j :: 0 <= j < i ==> column(rows[j]).None?
  }

  lemma FirstSets<T(!new)>(rows: seq<PolicyRow>, field: PolicyRow -> Option<T>, column: PolicyRow -> Option<T>, fallback: T)
    returns (answer: Option<T>)
    requires forall p :: field(p) == column(p)
    ensures SetsFirst(rows, column, answer) && First(rows, field, fallback) == answer.GetOr(fallback)
  {
    var i := FirstPosition(rows, field);
    FirstIsUnshadowed(rows, field, fallback, i);
    answer := if i < |rows| then column(rows[i]) else None;
    forall j | 0 <= j < i ensures column(rows[j]).None? {
      assert field(rows[j]).None?;
    }
  }

  // A nullable column: its own value or NULL.
  lemma FirstLifts(rows: seq<PolicyRow>, field: PolicyRow -> Option<Option<int>>, column: PolicyRow -> Option<int>)
    requires forall p :: field(p) == if column(p).Some? then Some(column(p)) else None
    ensures SetsFirst(rows, column, First(rows, field, None))
  {
    var i := FirstPosition(rows, field);
    FirstIsUnshadowed(rows, field, None, i);
    forall j | 0 <= j < i ensures column(rows[j]).None? {
      assert field(rows[j]).None?;
    }
  }

  // The columns of a resolved policy, each by its own name.
  ghost predicate ResolvedFrom(rows: seq<PolicyRow>, r: Resolved) {
    && (SetsFirst(rows, (p: PolicyRow) => p.paused, Some(r.paused)) || (SetsFirst(rows, (p: PolicyRow) => p.paused, None) && !r.paused))
    && (SetsFirst(rows, (p: PolicyRow) => p.failover, Some(r.failover))
        || (SetsFirst(rows, (p: PolicyRow) => p.failover, None) && !r.failover))
    && (SetsFirst(rows, (p: PolicyRow) => p.scheduling, Some(r.scheduling))
        || (SetsFirst(rows, (p: PolicyRow) => p.scheduling, None) && r.scheduling))
    && (SetsFirst(rows, (p: PolicyRow) => p.replayAllowed, Some(r.replayAllowed))
        || (SetsFirst(rows, (p: PolicyRow) => p.replayAllowed, None) && r.replayAllowed))
    && SetsFirst(rows, (p: PolicyRow) => p.maxAttempts, r.maxAttempts)
    && SetsFirst(rows, (p: PolicyRow) => p.baseSeconds, r.baseSeconds)
    && SetsFirst(rows, (p: PolicyRow) => p.maxSeconds, r.maxSeconds)
  }

  lemma FlagsResolve(rows: seq<PolicyRow>)
    ensures var r := FirstOfEach(rows, DEFAULTS);
      && (SetsFirst(rows, (p: PolicyRow) => p.paused, Some(r.paused)) || (SetsFirst(rows, (p: PolicyRow) => p.paused, None) && !r.paused))
      && (SetsFirst(rows, (p: PolicyRow) => p.failover, Some(r.failover))
          || (SetsFirst(rows, (p: PolicyRow) => p.failover, None) && !r.failover))
      && (SetsFirst(rows, (p: PolicyRow) => p.scheduling, Some(r.scheduling))
          || (SetsFirst(rows, (p: PolicyRow) => p.scheduling, None) && r.scheduling))
      && (SetsFirst(rows, (p: PolicyRow) => p.replayAllowed, Some(r.replayAllowed))
          || (SetsFirst(rows, (p: PolicyRow) => p.replayAllowed, None) && r.replayAllowed))
  {
    var _ := FirstSets(rows, PausedOf, (p: PolicyRow) => p.paused, DEFAULTS.paused);
    var _ := FirstSets(rows, FailoverOf, (p: PolicyRow) => p.failover, DEFAULTS.failover);
    var _ := FirstSets(rows, SchedulingOf, (p: PolicyRow) => p.scheduling, DEFAULTS.scheduling);
    var _ := FirstSets(rows, ReplayAllowedOf, (p: PolicyRow) => p.replayAllowed, DEFAULTS.replayAllowed);
  }

  lemma LimitsResolve(rows: seq<PolicyRow>)
    ensures var r := FirstOfEach(rows, DEFAULTS);
      && SetsFirst(rows, (p: PolicyRow) => p.maxAttempts, r.maxAttempts)
      && SetsFirst(rows, (p: PolicyRow) => p.baseSeconds, r.baseSeconds)
      && SetsFirst(rows, (p: PolicyRow) => p.maxSeconds, r.maxSeconds)
  {
    FirstLifts(rows, MaxAttemptsOf, (p: PolicyRow) => p.maxAttempts);
    FirstLifts(rows, BaseSecondsOf, (p: PolicyRow) => p.baseSeconds);
    FirstLifts(rows, MaxSecondsOf, (p: PolicyRow) => p.maxSeconds);
  }

  method ResolveDeliveryPolicy(ordered: seq<PolicyRow>) returns (r: Resolved)
    ensures r == FirstOfEach(ordered, DEFAULTS)
    ensures ResolvedFrom(ordered, r)
  {
    FlagsResolve(ordered);
    LimitsResolve(ordered);
    var resolution := new Resolution();
    var i := |ordered|;
    assert ordered[i..] == [];
    while i > 0
      invariant 0 <= i <= |ordered|
      invariant resolution.value == FirstOfEach(ordered[i..], DEFAULTS)
    {
      i := i - 1;
      assert ordered[i..] == [ordered[i]] + ordered[i + 1..];
      resolution.ApplyPolicyRow(ordered[i]);
    }
    assert ordered[0..] == ordered;
    r := resolution.value;
  }

  // ------------------------------------------------------- the COALESCE chain

  datatype Target = Target(tenant: string, channel: Channel)

  predicate Applies(r: PolicyRow, t: Target) {
    (r.tenant.None? || r.tenant == Some(t.tenant)) && (r.channel.None? || r.channel == Some(t.channel))
  }

  // Tenant and channel, tenant, channel, global.
  function Scope(r: PolicyRow): (k: nat)
    ensures 1 <= k <= 4
  {
    if r.tenant.Some? then (if r.channel.Some? then 1 else 2) else if r.channel.Some? then 3 else 4
  }

  predicate InScope(r: PolicyRow, t: Target, k: nat) {
    Applies(r, t) && Scope(r) == k
  }

  // The ORDER BY of the resolver.
  predicate Precedes(r: PolicyRow, q: PolicyRow) {
    Scope(r) < Scope(q)
    || (Scope(r) == Scope(q) && (r.updatedAt > q.updatedAt || (r.updatedAt == q.updatedAt && r.createdAt >= q.createdAt)))
  }

  ghost predicate Arranged(table: set<PolicyRow>, t: Target, ordered: seq<PolicyRow>) {
    && (forall r :: r in ordered <==> r in table && Applies(r, t))
    && (forall i, j :: 0 <= i < j < |ordered| ==> Precedes(ordered[i], ordered[j]))
  }

  // ORDER BY updated_at DESC LIMIT 1 within one scope
  ghost predicate IsNewest(table: set<PolicyRow>, t: Target, k: nat, pick: Option<PolicyRow>) {
    if pick.None? then forall r :: r in table ==> !InScope(r, t, k)
    else
      && pick.value in table && InScope(pick.value, t, k)
      && forall r :: r in table && InScope(r, t, k) ==> r.updatedAt <= pick.value.updatedAt
  }

  predicate SameScope(r: PolicyRow, q: PolicyRow, t: Target) {
    Applies(r, t) && Applies(q, t) && Scope(r) == Scope(q)
  }

  // Two rows of one scope are never written at the same instant.
  ghost predicate DistinctUpdates(table: set<PolicyRow>, t: Target) {
    forall r, q :: r in table && q in table && SameScope(r, q, t) && r.updatedAt == q.updatedAt ==> r == q
  }

  function Coalesce(picks: seq<Option<PolicyRow>>): bool {
    if picks == [] then false
    else if picks[0].Some? && picks[0].value.paused.Some? then picks[0].value.paused.value
    else Coalesce(picks[1..])
  }

  ghost predicate Chain(table: set<PolicyRow>, t: Target, picks: seq<Option<PolicyRow>>) {
    |picks| == 4 && forall j :: 0 <= j < 4 ==> IsNewest(table, t, j + 1, picks[j])
  }

  lemma {:induction false} CoalesceSkips(picks: seq<Option<PolicyRow>>, k: nat)
    requires k <= |picks| && forall j :: 0 <= j < k ==> picks[j].None? || picks[j].value.paused.None?
    ensures Coalesce(picks) == Coalesce(picks[k..])
  {
    if k > 0 {
      CoalesceSkips(picks[1..], k - 1);
      assert picks[1..][k - 1..] == picks[k..];
    }
  }

  // ------------------------------------------------------- who has the last word

  // The row is about the tenant and the channel, or leaves them open.
  predicate About(r: PolicyRow, t: Target) {
    r.tenant in {None, Some(t.tenant)} && r.channel in {None, Some(t.channel)}
  }

  // A row for a tenant is narrower than one for all, and of two alike in that,
  // one for a channel than one for all channels.
  predicate Narrower(r: PolicyRow, q: PolicyRow) {
    (r.tenant.Some? && q.tenant.None?) || (r.tenant.Some? == q.tenant.Some? && r.channel.Some? && q.channel.None?)
  }

  predicate Newer(r: PolicyRow, q: PolicyRow) {
    r.updatedAt > q.updatedAt || (r.updatedAt == q.updatedAt && r.createdAt > q.createdAt)
  }

  // Whatever is set is set by the narrowest row that sets it, the newest of its
  // scope; rows about other tenants and channels have no say.
  lemma NarrowestWins<T>(table: set<PolicyRow>, t: Target, ordered: seq<PolicyRow>, field: PolicyRow -> Option<T>, fallback: T,
                         r: PolicyRow)
    requires Arranged(table, t, ordered) && r in table && About(r, t) && field(r).Some?
    requires forall q :: q in table && q != r && About(q, t) && field(q).Some? ==>
      Narrower(r, q) || (q.tenant == r.tenant && q.channel == r.channel && Newer(r, q))
    ensures First(ordered, field, fallback) == field(r).value
  {
    assert r in ordered;
    var i := FirstPosition(ordered, field);
    FirstIsUnshadowed(ordered, field, fallback, i);
    var j :| 0 <= j < |ordered| && ordered[j] == r;
    if i < j {
      assert Precedes(ordered[i], ordered[j]);
      assert ordered[i] in ordered;
    }
  }

  lemma NobodySets<T>(table: set<PolicyRow>, t: Target, ordered: seq<PolicyRow>, field: PolicyRow -> Option<T>, fallback: T)
    requires Arranged(table, t, ordered) && forall q :: q in table && About(q, t) ==> field(q).None?
    ensures First(ordered, field, fallback) == fallback
  {
    forall j | 0 <= j < |ordered| ensures field(ordered[j]).None? {
      assert ordered[j] in ordered;
    }
    var i := FirstPosition(ordered, field);
    FirstIsUnshadowed(ordered, field, fallback, i);
  }

  // The chain of the queries looks at the newest row of each scope only.
  lemma ChainTakesNewest(table: set<PolicyRow>, t: Target, picks: seq<Option<PolicyRow>>, r: PolicyRow)
    requires Chain(table, t, picks) && r in table && About(r, t) && r.paused.Some?
    requires forall q :: q in table && q != r && About(q, t) ==>
      (Narrower(r, q) || (Narrower(q, r) && q.paused.None?)
       || (q.tenant == r.tenant && q.channel == r.channel && r.updatedAt > q.updatedAt))
    ensures Coalesce(picks) == r.paused.value
  {
    var k := Scope(r);
    assert IsNewest(table, t, k, picks[k - 1]);
    forall j | 0 <= j < k - 1 ensures picks[j].None? || picks[j].value.paused.None? {
      assert IsNewest(table, t, j + 1, picks[j]);
    }
    CoalesceSkips(picks, k - 1);
    assert InScope(r, t, k);
    assert picks[k - 1] == Some(r);
  }

  // The narrowest scope with a pause setting has a newer row without one.
  ghost predicate Shadowed(table: set<PolicyRow>, t: Target, k: nat) {
    exists r, q :: r in table && q in table && InScope(r, t, k) && InScope(q, t, k)
      && r.paused.Some? && q.paused.None? && IsNewest(table, t, k, Some(q))
  }

  lemma ScopesRise(table: set<PolicyRow>, t: Target, ordered: seq<PolicyRow>)
    requires Arranged(table, t, ordered)
    ensures forall i, j :: 0 <= i <= j < |ordered| ==> Scope(ordered[i]) <= Scope(ordered[j])
  {
    forall i, j | 0 <= i <= j < |ordered| ensures Scope(ordered[i]) <= Scope(ordered[j]) {
      assert i == j || Precedes(ordered[i], ordered[j]);
    }
  }

  // The narrowest scope where any row sets the pause flag, with the newest such
  // row; scope 5 means that none does.
  lemma Deciding(table: set<PolicyRow>, t: Target, ordered: seq<PolicyRow>, picks: seq<Option<PolicyRow>>)
    returns (k: nat, i: nat)
    requires Arranged(table, t, ordered) && Chain(table, t, picks)
    ensures 1 <= k <= 5 && i <= |ordered| && (k == 5 <==> i == |ordered|)
    ensures i < |ordered| ==> InScope(ordered[i], t, k) && ordered[i].paused.Some?
    ensures forall j :: 0 <= j < i ==> ordered[j].paused.None?
    ensures First(ordered, PausedOf, false) == (i < |ordered| && ordered[i].paused.value)
    ensures forall r :: r in table && Applies(r, t) && Scope(r) < k ==> r.paused.None?
    ensures Coalesce(picks) == Coalesce(picks[k - 1..])
  {
    i := FirstPosition(ordered, PausedOf);
    FirstIsUnshadowed(ordered, PausedOf, false, i);
    k := if i < |ordered| then Scope(ordered[i]) else 5;
    assert forall j :: 0 <= j < i ==> PausedOf(ordered[j]).None?;
    if i < |ordered| {
      assert ordered[i] in ordered;
    }
    ScopesRise(table, t, ordered);
    forall r | r in table && Applies(r, t) && Scope(r) < k ensures r.paused.None? {
      assert r in ordered;
      var j :| 0 <= j < |ordered| && ordered[j] == r;
      assert j < i;
      assert PausedOf(ordered[j]).None?;
    }
    forall j | 0 <= j < k - 1 ensures picks[j].None? || picks[j].value.paused.None? {
      assert IsNewest(table, t, j + 1, picks[j]);
    }
    CoalesceSkips(picks, k - 1);
  }

  // Exactly when the two readers of the table agree: nobody sets the flag, or the
  // row the chain looks at in the deciding scope says what the resolver's row
  // there says, or says nothing and the wider scopes happen to say it.
  lemma PauseAgreesIff(table: set<PolicyRow>, t: Target, ordered: seq<PolicyRow>, picks: seq<Option<PolicyRow>>)
    returns (k: nat, i: nat)
    requires Arranged(table, t, ordered) && Chain(table, t, picks)
    ensures 1 <= k <= 5 && i <= |ordered| && (k == 5 <==> i == |ordered|)
    ensures i < |ordered| ==> InScope(ordered[i], t, k) && ordered[i].paused.Some? && picks[k - 1].Some?
    ensures forall j :: 0 <= j < i ==> ordered[j].paused.None?
    ensures FirstOfEach(ordered, DEFAULTS).paused == Coalesce(picks)
      <==> k == 5 || picks[k - 1].value.paused.GetOr(Coalesce(picks[k..])) == ordered[i].paused.value
  {
    k, i := Deciding(table, t, ordered, picks);
    if k == 5 {
      assert picks[4..] == [];
    } else {
      assert ordered[i] in ordered;
      assert IsNewest(table, t, k, picks[k - 1]);
      assert picks[k - 1..][1..] == picks[k..];
    }
  }

  // When no two rows of a scope were written at the same instant, that means
  // that the deciding scope is not shadowed, or that the wider scopes agree.
  lemma PauseAgreesUnlessShadowed(table: set<PolicyRow>, t: Target, ordered: seq<PolicyRow>, picks: seq<Option<PolicyRow>>)
    returns (k: nat, i: nat)
    requires Arranged(table, t, ordered) && Chain(table, t, picks) && DistinctUpdates(table, t)
    ensures 1 <= k <= 5 && i <= |ordered| && (k == 5 <==> i == |ordered|)
    ensures i < |ordered| ==> InScope(ordered[i], t, k) && ordered[i].paused.Some?
    ensures FirstOfEach(ordered, DEFAULTS).paused == Coalesce(picks)
      <==> k == 5 || !Shadowed(table, t, k) || ordered[i].paused.value == Coalesce(picks[k..])
  {
    k, i := PauseAgreesIff(table, t, ordered, picks);
    if k <= 4 {
      assert ordered[i] in ordered;
      assert IsNewest(table, t, k, picks[k - 1]);
      ShadowedIff(table, t, k, ordered[i], picks[k - 1].value);
      if picks[k - 1].value.paused.Some? { NewestIsFirst(table, t, ordered, k, i, picks[k - 1].value); }
    }
  }

  lemma NewestIsFirst(table: set<PolicyRow>, t: Target, ordered: seq<PolicyRow>, k: nat, i: nat, newest: PolicyRow)
    requires Arranged(table, t, ordered) && DistinctUpdates(table, t) && IsNewest(table, t, k, Some(newest))
    requires i < |ordered| && InScope(ordered[i], t, k) && newest.paused.Some?
    requires forall j :: 0 <= j < i ==> ordered[j].paused.None?
    ensures newest == ordered[i]
  {
    assert newest in ordered && ordered[i] in ordered;
    var j :| 0 <= j < |ordered| && ordered[j] == newest;
    assert j == i || (i < j && Precedes(ordered[i], ordered[j]));
  }

  lemma ShadowedIff(table: set<PolicyRow>, t: Target, k: nat, setter: PolicyRow, newest: PolicyRow)
    requires DistinctUpdates(table, t) && IsNewest(table, t, k, Some(newest))
    requires setter in table && InScope(setter, t, k) && setter.paused.Some?
    ensures Shadowed(table, t, k) <==> newest.paused.None?
  {
  }

  // One row per scope is enough for the two to agree.
  lemma PauseAgrees(table: set<PolicyRow>, t: Target, ordered: seq<PolicyRow>, picks: seq<Option<PolicyRow>>)
    requires Arranged(table, t, ordered) && Chain(table, t, picks)
    requires forall r, q :: r in table && q in table && SameScope(r, q, t) ==> r == q
    ensures FirstOfEach(ordered, DEFAULTS).paused == Coalesce(picks)
  {
    var k, i := PauseAgreesIff(table, t, ordered, picks);
    if k <= 4 {
      assert ordered[i] in ordered;
      assert IsNewest(table, t, k, picks[k - 1]);
    }
  }

  // A tenant is paused, then a later row of the same scope sets only failover:
  // the resolver still says paused, the claim query does not.
  lemma ShadowedPauseIsIgnored(t: Target)
    ensures var older := PolicyRow(Some(t.tenant), None, Some(true), None, None, None, None, None, None, 1, 1);
      var newer := PolicyRow(Some(t.tenant), None, None, Some(true), None, None, None, None, None, 2, 2);
      && Arranged({older, newer}, t, [newer, older])
      && Chain({older, newer}, t, [None, Some(newer), None, None])
      && FirstOfEach([newer, older], DEFAULTS).paused
      && !Coalesce([None, Some(newer), None, None])
  {
    var older := PolicyRow(Some(t.tenant), None, Some(true), None, None, None, None, None, None, 1, 1);
    var newer := PolicyRow(Some(t.tenant), None, None, Some(true), None, None, None, None, None, 2, 2);
    FirstIsUnshadowed([newer, older], PausedOf, false, 1);
    CoalesceSkips([None, Some(newer), None, None], 4);
  }
}
