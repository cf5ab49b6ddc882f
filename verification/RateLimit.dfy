// The fixed-window limiter of the submission path: INCR on a per-tenant key,
// EXPIRE by the caller that created it, and Redis dropping the key when its
// time comes. Callers interleave, and an EXPIRE may be late or never happen.
module RateLimit {
  import opened Wrappers
  import opened Rows

  // The Redis key of one tenant; without `expiresAt` it never goes away.
  datatype Counter = Counter(count: nat, expiresAt: Option<Time>)

  // History only: who was let through, when, and in which life of the key.
  datatype Grant = Grant(at: Time, life: nat)

  datatype Window = Window(
    key: Option<Counter>,
    expirers: set<nat>,       // callers that saw 1 and have yet to send EXPIRE
    now: Time,
    starts: seq<Time>,        // history: when each life of the key began
    grants: seq<Grant>)

  datatype Event =
    | Incr(caller: nat)
    | Expire(caller: nat)
    | GiveUp(caller: nat)     // a failed EXPIRE, or a crash before it
    | Pass(elapsed: nat)

  datatype Limits = Limits(limit: nat, seconds: nat) {
    // Redis keeps time in milliseconds; so does this clock.
    function Ttl(): nat { 1000 * seconds }
  }

  const START: Window := Window(None, {}, 0, [], [])

  // EXPIRE takes whole seconds: rounded up, at least one.
  function RoundedUp(windowNanos: nat): (seconds: nat)
    ensures seconds >= 1 && seconds * 1_000_000_000 >= windowNanos
    ensures seconds > 1 ==> (seconds - 1) * 1_000_000_000 < windowNanos
  {
    var seconds := (windowNanos + 999_999_999) / 1_000_000_000;
    if seconds < 1 then 1 else seconds
  }

  function Live(w: Window): Option<Counter> {
    if w.key.Some? && w.key.value.expiresAt.Some? && w.key.value.expiresAt.value <= w.now then None else w.key
  }

  // INCR on a missing key: the reply is 1, and the caller owes an EXPIRE.
  function Open(l: Limits, w: Window, caller: nat): Window {
    Window(Some(Counter(1, None)), w.expirers + {caller}, w.now, w.starts + [w.now],
           if l.limit > 0 then w.grants + [Grant(w.now, |w.starts|)] else w.grants)
  }

  function Join(l: Limits, w: Window): Window
    requires w.key.Some?
  {
    var n := w.key.value.count + 1;
    w.(key := Some(w.key.value.(count := n)),
       grants := if n <= l.limit && |w.starts| > 0 then w.grants + [Grant(w.now, |w.starts| - 1)] else w.grants)
  }

  function Step(l: Limits, w: Window, e: Event): Window {
    match e
    case Incr(caller) =>
      if caller in w.expirers then w else if Live(w).None? then Open(l, w, caller) else Join(l, w)
    case Expire(caller) =>
      if caller !in w.expirers then w
      else
        w.(key := if Live(w).Some? then Some(Live(w).value.(expiresAt := Some(w.now + l.Ttl()))) else None,
           expirers := w.expirers - {caller})
    case GiveUp(caller) => w.(expirers := w.expirers - {caller})
    case Pass(elapsed) => w.(now := w.now + elapsed)
  }

  ghost function From(l: Limits, w: Window, events: seq<Event>): Window {
    if events == [] then w else Step(l, From(l, w, events[..|events| - 1]), events[|events| - 1])
  }

  ghost function Run(l: Limits, events: seq<Event>): Window {
    From(l, START, events)
  }

  lemma FromSnoc(l: Limits, w: Window, events: seq<Event>, e: Event)
    ensures From(l, w, events + [e]) == Step(l, From(l, w, events), e)
  {
    assert (events + [e])[..|events|] == events;
  }

  function InLife(grants: seq<Grant>, life: nat): nat {
    if grants == [] then 0
    else InLife(grants[..|grants| - 1], life) + if grants[|grants| - 1].life == life then 1 else 0
  }

  // Requests let through at a time in [from, until).
  function Between(grants: seq<Grant>, from: Time, until: Time): nat {
    if grants == [] then 0
    else Between(grants[..|grants| - 1], from, until) + if from <= grants[|grants| - 1].at < until then 1 else 0
  }

  // ---------------------------------------------------------------- invariant

  // Lives of the key are at least one window apart.
  ghost predicate StartsOk(l: Limits, w: Window) {
    && (forall i, j :: 0 <= i < j < |w.starts| ==> w.starts[i] + l.Ttl() <= w.starts[j])
    && (forall i :: 0 <= i < |w.starts| ==> w.starts[i] <= w.now)
  }

  ghost predicate KeyOk(l: Limits, w: Window) {
    && (w.key.None? <==> w.starts == [])
    && (w.key.Some? ==> w.key.value.count >= 1)
    && (w.key.Some? && w.key.value.expiresAt.Some? ==>
          w.starts[|w.starts| - 1] + l.Ttl() <= w.key.value.expiresAt.value)
    && (forall c :: c in w.expirers ==> w.key.Some? && w.key.value.expiresAt.None?)
    && (forall c, d :: c in w.expirers && d in w.expirers ==> c == d)
  }

  ghost predicate GrantOk(w: Window, g: Grant) {
    && g.life < |w.starts| && w.starts[g.life] <= g.at <= w.now
    && (g.life + 1 < |w.starts| ==> g.at <= w.starts[g.life + 1])
  }

  // The request that created the key was let through there and then.
  ghost predicate Opened(w: Window, life: nat)
    requires life < |w.starts|
  {
    exists i :: 0 <= i < |w.grants| && w.grants[i] == Grant(w.starts[life], life)
  }

  ghost predicate CountsOk(l: Limits, w: Window) {
    && (forall i :: 0 <= i < |w.grants| ==> GrantOk(w, w.grants[i]))
    && (forall life :: InLife(w.grants, life) <= l.limit)
    && (w.key.Some? && |w.starts| > 0 ==> InLife(w.grants, |w.starts| - 1) <= w.key.value.count)
    && (l.limit > 0 ==> forall life :: 0 <= life < |w.starts| ==> Opened(w, life))
  }

  ghost predicate WindowOk(l: Limits, w: Window) {
    StartsOk(l, w) && KeyOk(l, w) && CountsOk(l, w)
  }

  lemma {:induction false} NewLifeIsEmpty(grants: seq<Grant>, life: nat)
    requires forall i :: 0 <= i < |grants| ==> grants[i].life < life
    ensures InLife(grants, life) == 0
  {
    if grants != [] {
      NewLifeIsEmpty(grants[..|grants| - 1], life);
    }
  }

  lemma StillOpened(w: Window, w': Window, life: nat)
    requires life < |w.starts| && Opened(w, life) && w.starts <= w'.starts && w.grants <= w'.grants
    ensures Opened(w', life)
  {
    var i :| 0 <= i < |w.grants| && w.grants[i] == Grant(w.starts[life], life);
    assert w'.grants[i] == Grant(w'.starts[life], life);
  }

  // A request that finds no key starts a new life.
  lemma OpenKeeps(l: Limits, w: Window, caller: nat)
    requires StartsOk(l, w) && KeyOk(l, w) && Live(w).None?
    ensures StartsOk(l, Open(l, w, caller)) && KeyOk(l, Open(l, w, caller))
  {
    assert w.expirers == {};
  }

  lemma OpenCounts(l: Limits, w: Window, caller: nat)
    requires CountsOk(l, w) && forall i :: 0 <= i < |w.starts| ==> w.starts[i] <= w.now
    ensures CountsOk(l, Open(l, w, caller))
  {
    var w' := Open(l, w, caller);
    forall i | 0 <= i < |w.grants| ensures GrantOk(w', w'.grants[i]) {
      assert GrantOk(w, w.grants[i]);
    }
    NewLifeIsEmpty(w.grants, |w.starts|);
    if l.limit > 0 {
      InLifeSnoc(w.grants, Grant(w.now, |w.starts|));
      OpenOpens(l, w, caller);
    }
  }

  lemma OpenOpens(l: Limits, w: Window, caller: nat)
    requires l.limit > 0 && forall life :: 0 <= life < |w.starts| ==> Opened(w, life)
    ensures var w' := Open(l, w, caller); forall life :: 0 <= life < |w'.starts| ==> Opened(w', life)
  {
    var w' := Open(l, w, caller);
    assert w'.grants[|w.grants|] == Grant(w'.starts[|w.starts|], |w.starts|);
    forall life | 0 <= life < |w'.starts| ensures Opened(w', life) {
      if life < |w.starts| {
        StillOpened(w, w', life);
      }
    }
  }

  lemma InLifeSnoc(grants: seq<Grant>, g: Grant)
    ensures forall life :: InLife(grants + [g], life) == InLife(grants, life) + if g.life == life then 1 else 0
  {
    assert (grants + [g])[..|grants|] == grants;
  }

  // A request that finds the key takes the next place in its life.
  lemma JoinKeeps(l: Limits, w: Window)
    requires StartsOk(l, w) && KeyOk(l, w) && Live(w).Some?
    ensures StartsOk(l, Join(l, w)) && KeyOk(l, Join(l, w))
  {
  }

  lemma JoinCounts(l: Limits, w: Window)
    requires WindowOk(l, w) && Live(w).Some?
    ensures CountsOk(l, Join(l, w))
  {
    var w' := Join(l, w);
    if w'.grants != w.grants {
      InLifeSnoc(w.grants, Grant(w.now, |w.starts| - 1));
    }
    forall i | 0 <= i < |w'.grants| ensures GrantOk(w', w'.grants[i]) {
      assert i < |w.grants| ==> GrantOk(w, w.grants[i]);
    }
    forall life | 0 <= life < |w'.starts| && l.limit > 0 ensures Opened(w', life) {
      StillOpened(w, w', life);
    }
  }

  // Steps that let nobody through.
  lemma QuietKeeps(l: Limits, w: Window, w': Window)
    requires CountsOk(l, w)
    requires w'.grants == w.grants && w'.starts == w.starts && w'.now >= w.now
    requires w.key.Some? && w'.key.Some? ==> w'.key.value.count == w.key.value.count
    requires w.key.None? ==> w'.key.None?
    ensures CountsOk(l, w')
  {
    forall i | 0 <= i < |w'.grants| ensures GrantOk(w', w'.grants[i]) {
      assert GrantOk(w, w.grants[i]);
    }
    forall life | 0 <= life < |w'.starts| && l.limit > 0 ensures Opened(w', life) {
      StillOpened(w, w', life);
    }
  }

  lemma StepKeepsWindow(l: Limits, w: Window, e: Event)
    requires WindowOk(l, w)
    ensures WindowOk(l, Step(l, w, e))
  {
    var w' := Step(l, w, e);
    if e.Incr? {
      if e.caller !in w.expirers {
        if Live(w).None? {
          OpenKeeps(l, w, e.caller);
          OpenCounts(l, w, e.caller);
        } else {
          JoinKeeps(l, w);
          JoinCounts(l, w);
        }
      }
    } else {
      QuietKeeps(l, w, w');
    }
  }

  lemma {:induction false} WindowAlways(l: Limits, events: seq<Event>)
    ensures WindowOk(l, Run(l, events))
  {
    if events != [] {
      WindowAlways(l, events[..|events| - 1]);
      StepKeepsWindow(l, Run(l, events[..|events| - 1]), events[|events| - 1]);
    }
  }

  // ------------------------------------------------------------------- bounds

  // One life of the key lets at most `limit` requests through.
  lemma LimitPerLife(l: Limits, events: seq<Event>, life: nat)
    ensures InLife(Run(l, events).grants, life) <= l.limit
  {
    WindowAlways(l, events);
  }

  // Every request of the interval lies in one of two lives; `early` is one of
  // theirs from before it, if there is one.
  lemma {:induction false} TwoLives(grants: seq<Grant>, from: Time, until: Time, life: nat, early: nat)
    requires forall i :: 0 <= i < |grants| && from <= grants[i].at < until ==> grants[i].life in {life, life + 1}
    requires early < |grants| ==> grants[early].life == life && grants[early].at < from
    ensures Between(grants, from, until) + (if early < |grants| then 1 else 0) <=
      InLife(grants, life) + InLife(grants, life + 1)
  {
    if grants != [] {
      TwoLives(grants[..|grants| - 1], from, until, life, early);
    }
  }

  lemma {:induction false} OneLife(grants: seq<Grant>, from: Time, until: Time, life: nat)
    requires forall i :: 0 <= i < |grants| && from <= grants[i].at < until ==> grants[i].life == life
    ensures Between(grants, from, until) <= InLife(grants, life)
  {
    if grants != [] {
      OneLife(grants[..|grants| - 1], from, until, life);
    }
  }

  lemma NoThirdLife(l: Limits, w: Window, g: Grant, from: Time, until: Time, k: nat)
    requires StartsOk(l, w) && GrantOk(w, g) && from <= g.at < until <= from + l.Ttl()
    requires k + 1 < |w.starts| ==> from <= w.starts[k + 1]
    ensures g.life <= k + 1
  {
  }

  // Any interval no longer than the rounded-up window lets less than twice the
  // limit through, however callers interleave and whichever EXPIREs fail: if it
  // reaches into a second life, the opening request of the first lies before it.
  lemma BelowTwiceTheLimit(l: Limits, events: seq<Event>, from: Time, until: Time)
    requires l.limit > 0 && until <= from + l.Ttl()
    ensures Between(Run(l, events).grants, from, until) <= 2 * l.limit - 1
  {
    WindowAlways(l, events);
    var w := Run(l, events);
    var k := FirstLife(w, from, until);
    forall i | 0 <= i < |w.grants| && from <= w.grants[i].at < until ensures w.grants[i].life in {k, k + 1} {
      NoThirdLife(l, w, w.grants[i], from, until, k);
    }
    if i :| 0 <= i < |w.grants| && from <= w.grants[i].at < until && w.grants[i].life == k + 1 {
      assert GrantOk(w, w.grants[i]);
      assert w.starts[k] + l.Ttl() <= w.starts[k + 1];
      assert Opened(w, k);
      var early :| 0 <= early < |w.grants| && w.grants[early] == Grant(w.starts[k], k);
      TwoLives(w.grants, from, until, k, early);
    } else {
      OneLife(w.grants, from, until, k);
    }
  }

  // The life of the earliest request of the interval.
  lemma FirstLife(w: Window, from: Time, until: Time) returns (k: nat)
    requires forall i :: 0 <= i < |w.grants| ==> GrantOk(w, w.grants[i])
    ensures forall i :: 0 <= i < |w.grants| && from <= w.grants[i].at < until ==> w.grants[i].life >= k
    ensures k + 1 < |w.starts| && (exists i :: 0 <= i < |w.grants| && from <= w.grants[i].at < until) ==>
      from <= w.starts[k + 1]
  {
    k := |w.starts|;
    var n := 0;
    while n < |w.grants|
      invariant n <= |w.grants| && k <= |w.starts|
      invariant forall i :: 0 <= i < n && from <= w.grants[i].at < until ==> w.grants[i].life >= k
      invariant k < |w.starts| ==> exists i :: 0 <= i < n && from <= w.grants[i].at < until && w.grants[i].life == k
    {
      assert GrantOk(w, w.grants[n]);
      if from <= w.grants[n].at < until && w.grants[n].life < k {
        k := w.grants[n].life;
      }
      n := n + 1;
    }
    if k < |w.starts| {
      var i :| 0 <= i < |w.grants| && from <= w.grants[i].at < until && w.grants[i].life == k;
      assert GrantOk(w, w.grants[i]);
    }
  }

  function Incrs(n: nat): seq<Event> {
    if n == 0 then [] else Incrs(n - 1) + [Incr(1)]
  }

  lemma BetweenSnoc(grants: seq<Grant>, g: Grant, from: Time, until: Time)
    ensures Between(grants + [g], from, until) == Between(grants, from, until) + if from <= g.at < until then 1 else 0
  {
    assert (grants + [g])[..|grants|] == grants;
  }

  // A live key with room, and nobody about to give it another end.
  predicate Spendable(l: Limits, w: Window, n: nat) {
    && Live(w).Some? && 1 <= w.key.value.count <= l.limit - n
    && 1 !in w.expirers && |w.starts| > 0
  }

  lemma NextPlace(l: Limits, w: Window)
    requires Spendable(l, w, 1)
    ensures Step(l, w, Incr(1)) == w.(
      key := Some(w.key.value.(count := w.key.value.count + 1)),
      grants := w.grants + [Grant(w.now, |w.starts| - 1)])
  {
  }

  lemma {:induction false} Spend(l: Limits, w: Window, n: nat, from: Time, until: Time)
    requires Spendable(l, w, n) && from <= w.now < until
    ensures var w' := From(l, w, Incrs(n));
      && w' == w.(key := Some(w.key.value.(count := w.key.value.count + n)), grants := w'.grants)
      && Between(w'.grants, from, until) == Between(w.grants, from, until) + n
  {
    if n > 0 {
      Spend(l, w, n - 1, from, until);
      var v := From(l, w, Incrs(n - 1));
      FromSnoc(l, w, Incrs(n - 1), Incr(1));
      NextPlace(l, v);
      BetweenSnoc(v.grants, Grant(v.now, |v.starts| - 1), from, until);
    }
  }

  lemma {:induction false} FromConcat(l: Limits, w: Window, events: seq<Event>, more: seq<Event>)
    ensures From(l, w, events + more) == From(l, From(l, w, events), more)
  {
    if more == [] {
      assert events + more == events;
    } else {
      var front := more[..|more| - 1];
      assert (events + more)[..|events + more| - 1] == events + front;
      FromConcat(l, w, events, front);
    }
  }

  // The key is opened at time 0 and runs to the end of its window.
  lemma FirstHalf(l: Limits) returns (events: seq<Event>)
    requires l.limit > 0 && l.seconds >= 1
    ensures var w := Run(l, events);
      && w == Window(Some(Counter(l.limit, Some(l.Ttl()))), {}, l.Ttl(), [0], w.grants)
      && Between(w.grants, 1, l.Ttl() + 1) == l.limit - 1
  {
    var opening := [Incr(0), Expire(0), Pass(1)];
    var w1 := Three(l, START, Incr(0), Expire(0), Pass(1));
    assert w1 == Window(Some(Counter(1, Some(l.Ttl()))), {}, 1, [0], [Grant(0, 0)]);
    assert w1.grants == [] + [Grant(0, 0)];
    BetweenSnoc([], Grant(0, 0), 1, l.Ttl() + 1);
    Spend(l, w1, l.limit - 1, 1, l.Ttl() + 1);
    FromConcat(l, START, opening, Incrs(l.limit - 1));
    events := opening + Incrs(l.limit - 1);
    FromSnoc(l, START, events, Pass(l.Ttl() - 1));
    events := events + [Pass(l.Ttl() - 1)];
  }

  lemma OpenedAgain(l: Limits, w: Window) returns (w1: Window)
    requires l.limit > 0 && Live(w).None? && w.expirers == {}
    ensures w1 == Step(l, w, Incr(0)) && w1.now == w.now
    ensures Spendable(l, w1, l.limit - 1) && w1.grants == w.grants + [Grant(w.now, |w.starts|)]
  {
    w1 := Open(l, w, 0);
  }

  lemma SecondHalf(l: Limits, w: Window) returns (events: seq<Event>)
    requires l.limit > 0 && l.seconds >= 1
    requires w.now == l.Ttl() && Live(w).None? && w.expirers == {}
    ensures Between(From(l, w, events).grants, 1, l.Ttl() + 1) == Between(w.grants, 1, l.Ttl() + 1) + l.limit
  {
    var w1 := OpenedAgain(l, w);
    FromSnoc(l, w, [], Incr(0));
    assert [] + [Incr(0)] == [Incr(0)];
    BetweenSnoc(w.grants, Grant(l.Ttl(), |w.starts|), 1, l.Ttl() + 1);
    Spend(l, w1, l.limit - 1, 1, l.Ttl() + 1);
    FromConcat(l, w, [Incr(0)], Incrs(l.limit - 1));
    events := [Incr(0)] + Incrs(l.limit - 1);
  }

  // The bound is met: most of a window is spent just before the key goes, and a
  // whole one right after.
  lemma BoundIsReached(l: Limits) returns (events: seq<Event>)
    requires l.limit > 0 && l.seconds >= 1
    ensures Between(Run(l, events).grants, 1, l.Ttl() + 1) == 2 * l.limit - 1
  {
    var first := FirstHalf(l);
    var second := SecondHalf(l, Run(l, first));
    FromConcat(l, START, first, second);
    events := first + second;
  }

  // ------------------------------------------------------------ a lost EXPIRE

  // Nobody is left who would give the key an end.
  predicate Stuck(l: Limits, w: Window) {
    w.key.Some? && w.key.value.expiresAt.None? && w.expirers == {} && w.key.value.count >= l.limit
  }

  lemma {:induction false} StuckForever(l: Limits, w: Window, events: seq<Event>)
    requires Stuck(l, w)
    ensures Stuck(l, From(l, w, events)) && From(l, w, events).grants == w.grants
  {
    if events != [] {
      StuckForever(l, w, events[..|events| - 1]);
    }
  }

  // One failed EXPIRE is enough: the requests that follow use up the limit, and
  // then nobody is ever let in again.
  lemma LostExpireLocks(l: Limits, more: seq<Event>) returns (events: seq<Event>)
    requires l.limit > 0
    ensures var w := Run(l, events);
      |w.grants| == l.limit && From(l, w, more).grants == w.grants
  {
    var w;
    events, w := SpentWithoutEnd(l);
    StuckForever(l, w, more);
  }

  lemma SpentWithoutEnd(l: Limits) returns (events: seq<Event>, w: Window)
    requires l.limit > 0
    ensures w == Run(l, events) && Stuck(l, w) && |w.grants| == l.limit
  {
    var w1, opening := OpenedForGood(l);
    events, w := SpendRest(l, opening, w1);
  }

  lemma SpendRest(l: Limits, opening: seq<Event>, w1: Window) returns (events: seq<Event>, w: Window)
    requires l.limit > 0 && w1 == Run(l, opening) == Window(Some(Counter(1, None)), {}, 0, [0], [Grant(0, 0)])
    ensures w == Run(l, events) && Stuck(l, w) && |w.grants| == l.limit
  {
    var n := l.limit - 1;
    events := opening + Incrs(n);
    w := From(l, w1, Incrs(n));
    FromConcat(l, START, opening, Incrs(n));
    SpendGrants(l, w1, n);
    Spend(l, w1, n, 0, 1);
  }

  lemma OpenedForGood(l: Limits) returns (w1: Window, opening: seq<Event>)
    requires l.limit > 0
    ensures w1 == Run(l, opening) == Window(Some(Counter(1, None)), {}, 0, [0], [Grant(0, 0)])
  {
    w1 := Step(l, Step(l, START, Incr(0)), GiveUp(0));
    opening := [Incr(0), GiveUp(0)];
    TwoEvents(l, START, Incr(0), GiveUp(0));
  }

  lemma {:induction false} SpendGrants(l: Limits, w: Window, n: nat)
    requires Spendable(l, w, n)
    ensures |From(l, w, Incrs(n)).grants| == |w.grants| + n
  {
    if n > 0 {
      SpendGrants(l, w, n - 1);
      Spend(l, w, n - 1, w.now, w.now + 1);
      FromSnoc(l, w, Incrs(n - 1), Incr(1));
      NextPlace(l, From(l, w, Incrs(n - 1)));
    }
  }

  // The tenant is let in again at some later time exactly when the key is not
  // stuck: it has an end, has room, or a caller still has to send EXPIRE.
  lemma RecoversIff(l: Limits, events: seq<Event>) returns (more: seq<Event>)
    requires l.limit > 0
    ensures var w := Run(l, events);
      if Stuck(l, w) then forall more' :: From(l, w, more').grants == w.grants
      else |From(l, w, more).grants| > |w.grants|
  {
    WindowAlways(l, events);
    var w := Run(l, events);
    more := [];
    if Stuck(l, w) {
      forall more' ensures From(l, w, more').grants == w.grants {
        StuckForever(l, w, more');
      }
    } else {
      more := WayBack(l, w);
    }
  }

  lemma WayBack(l: Limits, w: Window) returns (more: seq<Event>)
    requires WindowOk(l, w) && !Stuck(l, w) && l.limit > 0
    ensures |From(l, w, more).grants| > |w.grants|
  {
    if w.expirers != {} {
      var c :| c in w.expirers;
      var w1 := Step(l, w, Expire(c));
      StepKeepsWindow(l, w, Expire(c));
      var w2 := Step(l, w1, Pass(l.Ttl()));
      assert w1.expirers == {};
      more := [Expire(c), Pass(l.Ttl()), Incr(0)];
      var _ := Three(l, w, Expire(c), Pass(l.Ttl()), Incr(0));
      assert Live(w2).None?;
    } else if w.key.Some? && w.key.value.expiresAt.Some? {
      var rest := w.key.value.expiresAt.value;
      more := [Pass(rest), Pass(0), Incr(0)];
      var _ := Three(l, w, Pass(rest), Pass(0), Incr(0));
    } else {
      more := [Pass(0), Pass(0), Incr(0)];
      var _ := Three(l, w, Pass(0), Pass(0), Incr(0));
    }
  }

  lemma Three(l: Limits, w: Window, a: Event, b: Event, c: Event) returns (end: Window)
    ensures end == From(l, w, [a, b, c]) == Step(l, Step(l, Step(l, w, a), b), c)
  {
    end := From(l, w, [a, b, c]);
    FromSnoc(l, w, [], a);
    FromSnoc(l, w, [a], b);
    FromSnoc(l, w, [a, b], c);
    assert [] + [a] == [a] && [a] + [b] == [a, b] && [a, b] + [c] == [a, b, c];
  }

  // ------------------------------------------------------------ one call of it

  // The wait of a denial is in nanoseconds, like the window.
  datatype Answer = Allowed | Denied(retryAfter: nat) | Unavailable

  function LimitsOf(limit: int, window: nat): Limits {
    Limits(if limit <= 0 then 0 else limit, RoundedUp(window))
  }

  // TTL rounds the milliseconds left to whole seconds, and is negative for a key
  // without an end.
  function TtlReply(end: Option<Time>, now: Time): int {
    if end.None? then -1 else if end.value > now then (end.value - now + 500) / 1000 else -2
  }

  // A denial names what TTL says, or the whole window if that is of no use. For a
  // key with an end the answer is at most half a second too short, and at most
  // that much too long unless it is the window.
  ghost predicate WaitOk(retryAfter: nat, window: nat, ttlFails: bool, end: Option<Time>, now: Time) {
    && (window > 0 ==> retryAfter > 0)
    && (ttlFails || end.None? ==> retryAfter == window)
    && (!ttlFails && end.Some? ==>
          && 1_000_000 * (end.value - now) <= retryAfter + 500_000_000
          && (retryAfter == window || retryAfter <= 1_000_000 * (end.value - now) + 500_000_000))
  }

  method RetryAfter(window: nat, ttlFails: bool, end: Option<Time>, now: Time) returns (retryAfter: nat)
    ensures WaitOk(retryAfter, window, ttlFails, end, now)
  {
    var ttl := TtlReply(end, now) * 1_000_000_000;
    if ttlFails || ttl <= 0 {
      ttl := window;
    }
    retryAfter := ttl;
  }

  class Limiter {
    var window: Window

    // One uninterrupted call; `expireFails` and `ttlFails` say what becomes of its
    // other two commands.
    method AllowTenant(limit: int, length: nat, named: bool, caller: nat, expireFails: bool, ttlFails: bool)
      returns (answer: Answer)
      requires WindowOk(LimitsOf(limit, length), window) && caller !in window.expirers
      modifies this
      ensures WindowOk(LimitsOf(limit, length), window)
      ensures limit <= 0 || !named ==> answer == Allowed && window == old(window)
      ensures limit > 0 && named ==>
        window == From(LimitsOf(limit, length), old(window), [Incr(caller), if expireFails then GiveUp(caller) else Expire(caller)])
      ensures limit > 0 && named && answer == Allowed ==> |window.grants| == |old(window.grants)| + 1
      ensures answer.Denied? ==>
        && window.grants == old(window.grants) && Live(window).Some?
        && WaitOk(answer.retryAfter, length, ttlFails, Live(window).value.expiresAt, window.now)
      ensures answer.Unavailable? ==> expireFails && old(Live(window)).None?
    {
      if limit <= 0 || !named {
        return Allowed;
      }
      var count := Counted(LimitsOf(limit, length), caller, expireFails);
      if count.None? {
        return Unavailable;
      }
      if count.value <= limit {
        return Allowed;
      }
      var retryAfter := RetryAfter(length, ttlFails, window.key.value.expiresAt, window.now);
      return Denied(retryAfter);
    }

    // INCR, and EXPIRE by the caller that gets a 1; none if that failed.
    method Counted(l: Limits, caller: nat, expireFails: bool) returns (count: Option<nat>)
      requires WindowOk(l, window) && caller !in window.expirers && l.limit > 0
      modifies this
      ensures WindowOk(l, window)
      ensures window == From(l, old(window), [Incr(caller), if expireFails then GiveUp(caller) else Expire(caller)])
      ensures count.None? ==> expireFails && old(Live(window)).None?
      ensures count.Some? ==>
        |window.grants| == |old(window.grants)| + (if count.value <= l.limit then 1 else 0)
      ensures count.Some? && count.value > l.limit ==>
        window.grants == old(window.grants) && window.key.Some? && Live(window) == window.key
    {
      var second := if expireFails then GiveUp(caller) else Expire(caller);
      TwoEvents(l, window, Incr(caller), second);
      StepKeepsWindow(l, window, Incr(caller));
      StepKeepsWindow(l, Step(l, window, Incr(caller)), second);
      window := Step(l, window, Incr(caller));
      count := Some(window.key.value.count);
      if count.value == 1 {
        window := Step(l, window, second);
        if expireFails {
          return None;
        }
      } else {
        assert window == Step(l, window, second);
      }
    }
  }

  lemma TwoEvents(l: Limits, w: Window, a: Event, b: Event)
    ensures From(l, w, [a, b]) == Step(l, Step(l, w, a), b)
  {
    FromSnoc(l, w, [], a);
    FromSnoc(l, w, [a], b);
    assert [] + [a] == [a] && [a] + [b] == [a, b];
  }
}
