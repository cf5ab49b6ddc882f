// Idempotent submission: any number of handlers post, look up, create, meet a
// conflict, look again and repair, each store call one transaction. Generated
// attempt and intent ids are plain numbers here.
module Submission {
  import opened Wrappers
  import opened Rows

  datatype Request = Request(id: nat, tenant: string, key: string, channel: Channel, scheduledFor: Option<Time>) {
    // A schedule that is not ahead of the clock is due at once.
    predicate Due(now: Time) { scheduledFor.None? || scheduledFor.value <= now }
  }

  datatype Row = Row(tenant: string, key: string, channel: Channel)

  // An attempt numbered 1.
  datatype First = First(notification: nat, channel: Channel, enqueued: bool)

  datatype OutboxRow = OutboxRow(attempt: nat, published: bool)

  type Notifications = map<nat, Row>

  datatype Phase = ToLookup | ToCreate | ToLookAgain(clash: bool) | ToEnsure(existing: nat)

  datatype Handler = Handler(request: Request, phase: Phase)

  // The two conflict answers: the notification already exists, or the policy does
  // not allow scheduled delivery. `clash` says that a generated id was taken, not
  // one the client chose; `blind` that the second look-up failed.
  datatype Answer = Success(notification: nat) | Refused(clash: bool, blind: bool) | Disallowed | Error

  datatype Reply = Reply(request: Request, answer: Answer)

  datatype State = State(
    notifications: Notifications,
    firsts: map<nat, First>,
    outbox: map<nat, OutboxRow>,
    handlers: map<nat, Handler>,
    replies: seq<Reply>)

  // `reported` is false when the call committed and then returned an error.
  datatype Event =
    | Arrive(handler: nat, request: Request)
    | Lookup(handler: nat)
    | Create(handler: nat, attempt: nat, intent: nat, now: Time, reported: bool)
    | Ensure(handler: nat, attempt: nat, intent: nat, reported: bool)
    | Forbid(handler: nat)      // the resolved policy has scheduling disabled
    | StoreFails(handler: nat)
    | Crash(handler: nat)
    | Enqueue(attempt: nat)
    | Clean(intent: nat)

  const START: State := State(map[], map[], map[], map[], [])

  predicate IsSubmitted(ns: Notifications, tenant: string, key: string, n: nat) {
    n in ns && ns[n].tenant == tenant && ns[n].key == key
  }

  // SELECT … WHERE tenant_id = $1 AND idempotency_key = $2
  ghost function Existing(s: State, tenant: string, key: string): (r: Option<nat>)
    ensures r.Some? ==> IsSubmitted(s.notifications, tenant, key, r.value)
    ensures r.None? ==> forall n :: !IsSubmitted(s.notifications, tenant, key, n)
  {
    if n: nat :| IsSubmitted(s.notifications, tenant, key, n) then Some(n) else None
  }

  predicate IsFirst(s: State, notification: nat, channel: Channel, a: nat) {
    a in s.firsts && s.firsts[a].notification == notification && s.firsts[a].channel == channel
  }

  ghost function FirstOf(s: State, notification: nat, channel: Channel): (r: Option<nat>)
    ensures r.Some? ==> IsFirst(s, notification, channel, r.value)
    ensures r.None? ==> forall a :: !IsFirst(s, notification, channel, a)
  {
    if a: nat :| IsFirst(s, notification, channel, a) then Some(a) else None
  }

  predicate Dispatches(s: State, i: nat, a: nat) {
    i in s.outbox && s.outbox[i].attempt == a
  }

  function Answered(s: State, handler: nat, answer: Answer): State
    requires handler in s.handlers
  {
    s.(handlers := s.handlers - {handler}, replies := s.replies + [Reply(s.handlers[handler].request, answer)])
  }

  function Moved(s: State, handler: nat, phase: Phase): State
    requires handler in s.handlers
  {
    s.(handlers := s.handlers[handler := s.handlers[handler].(phase := phase)])
  }

  ghost function LookupStep(s: State, handler: nat): State
    requires handler in s.handlers
  {
    var r := s.handlers[handler].request;
    var found := Existing(s, r.tenant, r.key);
    match s.handlers[handler].phase
    case ToLookup =>
      if r.key != "" && found.Some? then Moved(s, handler, ToEnsure(found.value)) else Moved(s, handler, ToCreate)
    case ToLookAgain(clash) =>
      if found.Some? then Moved(s, handler, ToEnsure(found.value)) else Answered(s, handler, Refused(clash, false))
    case _ => s
  }

  predicate IdClash(s: State, r: Request, attempt: nat, intent: nat, now: Time) {
    attempt in s.firsts || (r.Due(now) && intent in s.outbox)
  }

  ghost predicate CreateClashes(s: State, r: Request, attempt: nat, intent: nat, now: Time) {
    r.id in s.notifications || (r.key != "" && Existing(s, r.tenant, r.key).Some?) || IdClash(s, r, attempt, intent, now)
  }

  // The three inserts; without an intent for work scheduled ahead.
  function Inserted(s: State, handler: nat, attempt: nat, intent: nat, now: Time, answer: Answer): State
    requires handler in s.handlers
  {
    var r := s.handlers[handler].request;
    Answered(s, handler, answer).(
      notifications := s.notifications[r.id := Row(r.tenant, r.key, r.channel)],
      firsts := s.firsts[attempt := First(r.id, r.channel, false)],
      outbox := if r.Due(now) then s.outbox[intent := OutboxRow(attempt, false)] else s.outbox)
  }

  ghost function CreateStep(s: State, handler: nat, attempt: nat, intent: nat, now: Time, reported: bool): State
    requires handler in s.handlers
  {
    var r := s.handlers[handler].request;
    if CreateClashes(s, r, attempt, intent, now) then
      var clash := IdClash(s, r, attempt, intent, now);
      if r.key != "" then Moved(s, handler, ToLookAgain(clash)) else Answered(s, handler, Refused(clash, false))
    else
      Inserted(s, handler, attempt, intent, now, if reported then Success(r.id) else Error)
  }

  // INSERT … ON CONFLICT (attempt_id) DO NOTHING
  ghost function WithIntent(s: State, a: nat, intent: nat): State
    requires a in s.firsts
  {
    if exists i :: Dispatches(s, i, a) then s
    else s.(outbox := s.outbox[intent := OutboxRow(a, s.firsts[a].enqueued)])
  }

  ghost function EnsureStep(s: State, handler: nat, existing: nat, attempt: nat, intent: nat, reported: bool): State
    requires handler in s.handlers
  {
    if existing !in s.notifications then Answered(s, handler, Error)
    else
      var channel := s.notifications[existing].channel;
      var first := FirstOf(s, existing, channel);
      if (first.None? && attempt in s.firsts) || intent in s.outbox then Answered(s, handler, Error)
      else
        var s1 := if first.Some? then s else s.(firsts := s.firsts[attempt := First(existing, channel, false)]);
        Answered(WithIntent(s1, first.GetOr(attempt), intent), handler, if reported then Success(existing) else Error)
  }

  ghost function Step(s: State, e: Event): State {
    match e
    case Arrive(h, request) => if h in s.handlers then s else s.(handlers := s.handlers[h := Handler(request, ToLookup)])
    case Lookup(h) => if h in s.handlers then LookupStep(s, h) else s
    case Create(h, attempt, intent, now, reported) =>
      if h in s.handlers && s.handlers[h].phase.ToCreate? then CreateStep(s, h, attempt, intent, now, reported) else s
    case Ensure(h, attempt, intent, reported) =>
      if h in s.handlers && s.handlers[h].phase.ToEnsure?
      then EnsureStep(s, h, s.handlers[h].phase.existing, attempt, intent, reported) else s
    case Forbid(h) =>
      if h in s.handlers && s.handlers[h].phase.ToCreate? && s.handlers[h].request.scheduledFor.Some?
      then Answered(s, h, Disallowed) else s
    case StoreFails(h) =>
      if h !in s.handlers then s
      else if s.handlers[h].phase.ToLookAgain? then Answered(s, h, Refused(s.handlers[h].phase.clash, true))
      else Answered(s, h, Error)
    case Crash(h) => s.(handlers := s.handlers - {h})
    case Enqueue(a) =>
      if a !in s.firsts then s
      else
        s.(firsts := s.firsts[a := s.firsts[a].(enqueued := true)],
           outbox := map i | i in s.outbox ::
             if s.outbox[i].attempt == a then s.outbox[i].(published := true) else s.outbox[i])
    case Clean(i) => if i in s.outbox && s.outbox[i].published then s.(outbox := s.outbox - {i}) else s
  }

  ghost function Run(events: seq<Event>): State {
    if events == [] then START else Step(Run(events[..|events| - 1]), events[|events| - 1])
  }

  // ---------------------------------------------------------------- invariant

  ghost predicate OneRowPerKey(ns: Notifications) {
    forall n, m, tenant, key {:trigger IsSubmitted(ns, tenant, key, n), IsSubmitted(ns, tenant, key, m)} ::
      key != "" && IsSubmitted(ns, tenant, key, n) && IsSubmitted(ns, tenant, key, m) ==> n == m
  }

  ghost predicate FirstsOk(ns: Notifications, firsts: map<nat, First>) {
    && (forall a :: a in firsts ==> firsts[a].notification in ns && firsts[a].channel == ns[firsts[a].notification].channel)
    && (forall a, b :: a in firsts && b in firsts && firsts[a].notification == firsts[b].notification ==> a == b)
    && (forall n :: n in ns ==> HasFirst(firsts, n))
  }

  ghost predicate HasFirst(firsts: map<nat, First>, n: nat) {
    exists a :: a in firsts && firsts[a].notification == n
  }

  ghost predicate OutboxOk(firsts: map<nat, First>, outbox: map<nat, OutboxRow>) {
    && (forall i :: i in outbox ==> outbox[i].attempt in firsts)
    && (forall i, j :: i in outbox && j in outbox && outbox[i].attempt == outbox[j].attempt ==> i == j)
  }

  ghost predicate HandlerOk(ns: Notifications, h: Handler) {
    var r := h.request;
    match h.phase
    case ToEnsure(n) => r.key != "" && IsSubmitted(ns, r.tenant, r.key, n)
    case ToLookAgain(clash) => r.key != "" && (clash || r.id in ns || exists n :: IsSubmitted(ns, r.tenant, r.key, n))
    case _ => true
  }

  ghost predicate ReplyOk(ns: Notifications, r: Reply) {
    match r.answer
    case Success(n) => IsSubmitted(ns, r.request.tenant, r.request.key, n)
    case Refused(clash, blind) =>
      clash || r.request.id in ns || (blind && exists n :: IsSubmitted(ns, r.request.tenant, r.request.key, n))
    case Disallowed => r.request.scheduledFor.Some?
    case Error => true
  }

  ghost predicate TablesOk(s: State) {
    OneRowPerKey(s.notifications) && FirstsOk(s.notifications, s.firsts) && OutboxOk(s.firsts, s.outbox)
  }

  ghost predicate SubmissionOk(s: State) {
    && TablesOk(s)
    && (forall h :: h in s.handlers ==> HandlerOk(s.notifications, s.handlers[h]))
    && (forall r :: r in s.replies ==> ReplyOk(s.notifications, r))
  }

  // Notification rows are never changed or removed.
  ghost predicate Grew(ns: Notifications, ns': Notifications) {
    forall n :: n in ns ==> n in ns' && ns'[n] == ns[n]
  }

  lemma GrewKeeps(ns: Notifications, ns': Notifications)
    requires Grew(ns, ns')
    ensures forall h: Handler :: HandlerOk(ns, h) ==> HandlerOk(ns', h)
    ensures forall r: Reply :: ReplyOk(ns, r) ==> ReplyOk(ns', r)
  {
    forall r: Reply | ReplyOk(ns, r) ensures ReplyOk(ns', r) {
      if r.answer.Refused? {
        if n :| IsSubmitted(ns, r.request.tenant, r.request.key, n) {
          assert IsSubmitted(ns', r.request.tenant, r.request.key, n);
        }
      }
    }
    forall h: Handler | HandlerOk(ns, h) ensures HandlerOk(ns', h) {
      if h.phase.ToLookAgain? {
        if n :| IsSubmitted(ns, h.request.tenant, h.request.key, n) {
          assert IsSubmitted(ns', h.request.tenant, h.request.key, n);
        }
      }
    }
  }

  // An answer or a move of one handler, over tables that only grew.
  lemma HandlersKeep(s: State, s': State, h: nat)
    requires SubmissionOk(s) && TablesOk(s') && Grew(s.notifications, s'.notifications)
    requires forall g :: g in s'.handlers && g != h ==> g in s.handlers && s'.handlers[g] == s.handlers[g]
    requires h in s'.handlers ==> HandlerOk(s'.notifications, s'.handlers[h])
    requires forall r :: r in s'.replies && r !in s.replies ==> ReplyOk(s'.notifications, r)
    ensures SubmissionOk(s')
  {
    GrewKeeps(s.notifications, s'.notifications);
  }

  lemma LookupKeeps(s: State, h: nat)
    requires SubmissionOk(s) && h in s.handlers
    ensures SubmissionOk(LookupStep(s, h))
  {
    assert HandlerOk(s.notifications, s.handlers[h]);
    var r := s.handlers[h].request;
    var found := Existing(s, r.tenant, r.key);
    if found.Some? && r.key != "" {
      HandlersKeep(s, Moved(s, h, ToEnsure(found.value)), h);
    } else {
      HandlersKeep(s, Moved(s, h, ToCreate), h);
      if s.handlers[h].phase.ToLookAgain? {
        HandlersKeep(s, Answered(s, h, Refused(s.handlers[h].phase.clash, false)), h);
      }
    }
  }

  lemma CreateTables(s: State, r: Request, attempt: nat)
    requires TablesOk(s) && r.id !in s.notifications && attempt !in s.firsts
    requires r.key != "" ==> Existing(s, r.tenant, r.key).None?
    ensures var ns := s.notifications[r.id := Row(r.tenant, r.key, r.channel)];
      OneRowPerKey(ns) && FirstsOk(ns, s.firsts[attempt := First(r.id, r.channel, false)])
  {
    var ns := s.notifications[r.id := Row(r.tenant, r.key, r.channel)];
    var firsts := s.firsts[attempt := First(r.id, r.channel, false)];
    forall n | n in ns ensures HasFirst(firsts, n) {
      if n == r.id {
        assert firsts[attempt].notification == n;
      } else {
        assert HasFirst(s.firsts, n);
        var a :| a in s.firsts && s.firsts[a].notification == n;
        assert firsts[a].notification == n;
      }
    }
    forall n, m, tenant, key | key != "" && IsSubmitted(ns, tenant, key, n) && IsSubmitted(ns, tenant, key, m)
      ensures n == m
    {
      assert n != r.id ==> IsSubmitted(s.notifications, tenant, key, n);
      assert m != r.id ==> IsSubmitted(s.notifications, tenant, key, m);
    }
  }

  lemma CreateStored(s: State, h: nat, attempt: nat, intent: nat, now: Time, answer: Answer)
    requires SubmissionOk(s) && h in s.handlers && answer in {Success(s.handlers[h].request.id), Error}
    requires var r := s.handlers[h].request;
      && r.id !in s.notifications && attempt !in s.firsts && (r.key != "" ==> Existing(s, r.tenant, r.key).None?)
      && (r.Due(now) ==> intent !in s.outbox)
    ensures SubmissionOk(Inserted(s, h, attempt, intent, now, answer))
  {
    var r := s.handlers[h].request;
    var s' := Inserted(s, h, attempt, intent, now, answer);
    CreateTables(s, r, attempt);
    InsertedOutbox(s, s.firsts[attempt := First(r.id, r.channel, false)], attempt, intent, s'.outbox);
    assert IsSubmitted(s'.notifications, r.tenant, r.key, r.id);
    HandlersKeep(s, s', h);
  }

  lemma InsertedOutbox(s: State, firsts: map<nat, First>, attempt: nat, intent: nat, outbox: map<nat, OutboxRow>)
    requires OutboxOk(s.firsts, s.outbox) && attempt !in s.firsts && firsts.Keys == s.firsts.Keys + {attempt}
    requires outbox == s.outbox || (intent !in s.outbox && outbox == s.outbox[intent := OutboxRow(attempt, false)])
    ensures OutboxOk(firsts, outbox)
  {
  }

  lemma CreateKeeps(s: State, h: nat, attempt: nat, intent: nat, now: Time, reported: bool)
    requires SubmissionOk(s) && h in s.handlers && s.handlers[h].phase.ToCreate?
    ensures SubmissionOk(CreateStep(s, h, attempt, intent, now, reported))
  {
    var r := s.handlers[h].request;
    if CreateClashes(s, r, attempt, intent, now) {
      HandlersKeep(s, CreateStep(s, h, attempt, intent, now, reported), h);
    } else {
      CreateStored(s, h, attempt, intent, now, if reported then Success(r.id) else Error);
    }
  }

  // The attempt that repair finds is the one that was created.
  lemma FirstIsThere(s: State, n: nat) returns (a: nat)
    requires TablesOk(s) && n in s.notifications
    ensures a in s.firsts && s.firsts[a].notification == n
    ensures FirstOf(s, n, s.notifications[n].channel) == Some(a)
  {
    assert HasFirst(s.firsts, n);
    a :| a in s.firsts && s.firsts[a].notification == n;
    assert IsFirst(s, n, s.notifications[n].channel, a);
  }

  lemma IntentKeeps(s: State, a: nat, intent: nat)
    requires OutboxOk(s.firsts, s.outbox) && a in s.firsts && intent !in s.outbox
    ensures OutboxOk(s.firsts, WithIntent(s, a, intent).outbox)
  {
    forall i | i in s.outbox ensures s.outbox[i].attempt == a ==> Dispatches(s, i, a) {
    }
  }

  lemma EnsureKeeps(s: State, h: nat, attempt: nat, intent: nat, reported: bool)
    requires SubmissionOk(s) && h in s.handlers && s.handlers[h].phase.ToEnsure?
    ensures SubmissionOk(EnsureStep(s, h, s.handlers[h].phase.existing, attempt, intent, reported))
  {
    var n := s.handlers[h].phase.existing;
    assert HandlerOk(s.notifications, s.handlers[h]);
    var a := FirstIsThere(s, n);
    if intent !in s.outbox {
      IntentKeeps(s, a, intent);
    }
    HandlersKeep(s, EnsureStep(s, h, n, attempt, intent, reported), h);
  }

  lemma EnqueueKeeps(s: State, a: nat)
    requires TablesOk(s)
    ensures TablesOk(Step(s, Enqueue(a)))
  {
    if a in s.firsts {
      var s' := Step(s, Enqueue(a));
      SameFirsts(s, s'.firsts);
      SameTargets(s, s'.firsts, s'.outbox);
    }
  }

  lemma SameTargets(s: State, firsts: map<nat, First>, outbox: map<nat, OutboxRow>)
    requires OutboxOk(s.firsts, s.outbox) && firsts.Keys == s.firsts.Keys
    requires forall i :: i in outbox ==> i in s.outbox && outbox[i].attempt == s.outbox[i].attempt
    ensures OutboxOk(firsts, outbox)
  {
  }

  lemma SameFirsts(s: State, firsts: map<nat, First>)
    requires TablesOk(s) && firsts.Keys == s.firsts.Keys
    requires forall b :: b in firsts ==>
      firsts[b].notification == s.firsts[b].notification && firsts[b].channel == s.firsts[b].channel
    ensures FirstsOk(s.notifications, firsts)
  {
    forall n | n in s.notifications ensures HasFirst(firsts, n) {
      var b := FirstIsThere(s, n);
      assert firsts[b].notification == n;
    }
  }

  lemma StepKeeps(s: State, e: Event)
    requires SubmissionOk(s)
    ensures SubmissionOk(Step(s, e))
  {
    match e
    case Lookup(h) => if h in s.handlers { LookupKeeps(s, h); }
    case Create(h, attempt, intent, now, reported) =>
      if h in s.handlers && s.handlers[h].phase.ToCreate? { CreateKeeps(s, h, attempt, intent, now, reported); }
    case Ensure(h, attempt, intent, reported) =>
      if h in s.handlers && s.handlers[h].phase.ToEnsure? { EnsureKeeps(s, h, attempt, intent, reported); }
    case Enqueue(a) => EnqueueKeeps(s, a);
    case Arrive(h, _) => HandlersKeep(s, Step(s, e), h);
    case StoreFails(h) =>
      if h in s.handlers { assert HandlerOk(s.notifications, s.handlers[h]); }
      HandlersKeep(s, Step(s, e), h);
    case Forbid(h) => HandlersKeep(s, Step(s, e), h);
    case Crash(h) => HandlersKeep(s, Step(s, e), h);
    case Clean(_) =>
  }

  lemma {:induction false} SubmissionAlways(events: seq<Event>)
    ensures SubmissionOk(Run(events))
  {
    if events != [] {
      SubmissionAlways(events[..|events| - 1]);
      StepKeeps(Run(events[..|events| - 1]), events[|events| - 1]);
    }
  }

  // ------------------------------------------------------------------ results

  // Every success reply to one tenant and key names the same notification,
  // which is stored once, has one attempt numbered 1 and at most one outbox row.
  lemma Idempotent(events: seq<Event>, p: Reply, q: Reply) returns (attempt: nat)
    requires p in Run(events).replies && q in Run(events).replies
    requires p.answer.Success? && q.answer.Success?
    requires p.request.tenant == q.request.tenant && p.request.key == q.request.key != ""
    ensures var s := Run(events);
      var n := p.answer.notification;
      && q.answer.notification == n
      && (forall m :: IsSubmitted(s.notifications, p.request.tenant, p.request.key, m) <==> m == n)
      && (forall a :: a in s.firsts && s.firsts[a].notification == n <==> a == attempt)
      && (forall i, j :: Dispatches(s, i, attempt) && Dispatches(s, j, attempt) ==> i == j)
  {
    SubmissionAlways(events);
    var s := Run(events);
    assert ReplyOk(s.notifications, p) && ReplyOk(s.notifications, q);
    attempt := FirstIsThere(s, p.answer.notification);
  }

  // A conflict is answered for a schedule the policy does not allow, or over an
  // id, the one the client chose or a generated one; unless the second look-up
  // failed: then the key may be the reason, although its notification is there.
  lemma ConflictAnswers(events: seq<Event>, r: Reply)
    requires r in Run(events).replies && (r.answer.Refused? || r.answer.Disallowed?)
    ensures var ns := Run(events).notifications;
      var taken := r.answer.Refused? && (r.answer.clash || r.request.id in ns
        || (r.answer.blind && exists n :: IsSubmitted(ns, r.request.tenant, r.request.key, n)));
      if r.answer.Disallowed? then r.request.scheduledFor.Some? else taken
  {
    SubmissionAlways(events);
    assert ReplyOk(Run(events).notifications, r);
  }

  // Repair leaves the notification with an intent, marked published when its
  // attempt was already enqueued.
  lemma RepairRestoresIntent(s: State, h: nat, attempt: nat, intent: nat)
    requires SubmissionOk(s) && h in s.handlers && s.handlers[h].phase.ToEnsure? && intent !in s.outbox
    ensures var s' := Step(s, Ensure(h, attempt, intent, true));
      exists i, a :: Dispatches(s', i, a) && a in s.firsts && s.firsts[a].notification == s.handlers[h].phase.existing
        && s'.firsts == s.firsts && (i in s.outbox || s'.outbox[i].published == s.firsts[a].enqueued)
  {
    var n := s.handlers[h].phase.existing;
    assert HandlerOk(s.notifications, s.handlers[h]);
    var a := FirstIsThere(s, n);
    var s' := Step(s, Ensure(h, attempt, intent, true));
    if i :| Dispatches(s, i, a) {
      assert Dispatches(s', i, a);
    } else {
      assert Dispatches(s', intent, a);
    }
  }

  // ------------------------------------------------------------------ answers

  // The rows and columns a submission can collide with.
  ghost predicate Collides(s: State, r: Request, attempt: nat, intent: nat, now: Time) {
    || r.id in s.notifications
    || (r.key != "" && exists n :: n in s.notifications && s.notifications[n].tenant == r.tenant && s.notifications[n].key == r.key)
    || attempt in s.firsts
    || ((r.scheduledFor.None? || r.scheduledFor.value <= now) && intent in s.outbox)
  }

  predicate Replied(s: State, s': State, h: nat, answer: Answer) {
    h in s.handlers && s'.handlers == s.handlers - {h} && s'.replies == s.replies + [Reply(s.handlers[h].request, answer)]
  }

  predicate SameRows(s: State, s': State) {
    s'.notifications == s.notifications && s'.firsts == s.firsts && s'.outbox == s.outbox
  }

  // A submission that collides with nothing is stored, with its first attempt
  // and, unless it is scheduled ahead, its intent; it is answered with success
  // exactly if the store reports that. One that collides stores nothing: with a
  // key the handler looks again, without one it answers the conflict.
  lemma CreateAnswers(s: State, h: nat, attempt: nat, intent: nat, now: Time, reported: bool)
    requires h in s.handlers && s.handlers[h].phase.ToCreate?
    ensures var s', r := Step(s, Create(h, attempt, intent, now, reported)), s.handlers[h].request;
      if Collides(s, r, attempt, intent, now) then
        var generated := attempt in s.firsts || ((r.scheduledFor.None? || r.scheduledFor.value <= now) && intent in s.outbox);
        && SameRows(s, s')
        && (r.key == "" ==> Replied(s, s', h, Refused(generated, false)))
        && (r.key != "" ==> s'.replies == s.replies && s'.handlers == s.handlers[h := Handler(r, ToLookAgain(generated))])
      else
        && Replied(s, s', h, if reported then Success(r.id) else Error)
        && s'.notifications == s.notifications[r.id := Row(r.tenant, r.key, r.channel)]
        && s'.firsts == s.firsts[attempt := First(r.id, r.channel, false)]
        && s'.outbox == if r.scheduledFor.Some? && r.scheduledFor.value > now then s.outbox
                        else s.outbox[intent := OutboxRow(attempt, false)]
  {
    var r := s.handlers[h].request;
    assert CreateClashes(s, r, attempt, intent, now) <==> Collides(s, r, attempt, intent, now) by {
      if n :| n in s.notifications && s.notifications[n].tenant == r.tenant && s.notifications[n].key == r.key {
        assert IsSubmitted(s.notifications, r.tenant, r.key, n);
      }
    }
  }

  // What ends a submission early: the store is down, which hides behind the
  // conflict answer at the second look-up, scheduling is off, or a crash.
  lemma EarlyAnswers(s: State, h: nat)
    requires h in s.handlers
    ensures var phase, s' := s.handlers[h].phase, Step(s, StoreFails(h));
      SameRows(s, s') && Replied(s, s', h, if phase.ToLookAgain? then Refused(phase.clash, true) else Error)
    ensures var s' := Step(s, Forbid(h));
      if s.handlers[h].phase == ToCreate && s.handlers[h].request.scheduledFor != None
      then SameRows(s, s') && Replied(s, s', h, Disallowed) else s' == s
    ensures var s' := Step(s, Crash(h));
      SameRows(s, s') && s'.replies == s.replies && s'.handlers == s.handlers - {h}
  {
  }

  // A look-up by key finds the notification of the tenant with that key, if
  // there is one; the first look-up needs a key, the second answers the conflict
  // when there is none.
  lemma LookupAnswers(s: State, h: nat)
    requires SubmissionOk(s) && h in s.handlers && s.handlers[h].phase in {ToLookup, ToLookAgain(false), ToLookAgain(true)}
    ensures var s', r, again := Step(s, Lookup(h)), s.handlers[h].request, s.handlers[h].phase.ToLookAgain?;
      && SameRows(s, s')
      && (forall n :: n in s.notifications && s.notifications[n].tenant == r.tenant && s.notifications[n].key == r.key && r.key != "" ==>
            s'.replies == s.replies && s'.handlers == s.handlers[h := Handler(r, ToEnsure(n))])
      && ((forall n :: n in s.notifications ==> s.notifications[n].tenant != r.tenant || s.notifications[n].key != r.key) ==>
            if again then Replied(s, s', h, Refused(s.handlers[h].phase.clash, false))
            else s'.replies == s.replies && s'.handlers == s.handlers[h := Handler(r, ToCreate)])
      && (!again && r.key == "" ==> s'.replies == s.replies && s'.handlers == s.handlers[h := Handler(r, ToCreate)])
  {
    var r := s.handlers[h].request;
    var found := Existing(s, r.tenant, r.key);
    assert HandlerOk(s.notifications, s.handlers[h]);
    forall n | n in s.notifications && s.notifications[n].tenant == r.tenant && s.notifications[n].key == r.key && r.key != ""
      ensures found == Some(n) {
      assert IsSubmitted(s.notifications, r.tenant, r.key, n);
    }
  }

  // A repair leaves the notification and its first attempt alone, and is answered
  // with that notification exactly if the store reports that it got through.
  lemma EnsureAnswers(s: State, h: nat, attempt: nat, intent: nat, reported: bool)
    requires SubmissionOk(s) && h in s.handlers && s.handlers[h].phase.ToEnsure?
    ensures var s', n := Step(s, Ensure(h, attempt, intent, reported)), s.handlers[h].phase.existing;
      && s'.notifications == s.notifications && s'.firsts == s.firsts
      && (intent in s.outbox ==> s'.outbox == s.outbox && Replied(s, s', h, Error))
      && (intent !in s.outbox ==> Replied(s, s', h, if reported then Success(n) else Error))
  {
    assert HandlerOk(s.notifications, s.handlers[h]);
    var a := FirstIsThere(s, s.handlers[h].phase.existing);
  }

  // What others do to the rows meanwhile: a publisher enqueues an attempt and
  // closes its intent, maintenance deletes a closed one.
  lemma RowEvents(s: State, a: nat, i: nat)
    ensures var s' := Step(s, Enqueue(a));
      && s'.notifications == s.notifications && s'.handlers == s.handlers && s'.replies == s.replies
      && s'.firsts == (if a in s.firsts then s.firsts[a := First(s.firsts[a].notification, s.firsts[a].channel, true)] else s.firsts)
      && s'.outbox.Keys == s.outbox.Keys
      && forall k :: k in s.outbox ==>
           s'.outbox[k] == if a in s.firsts && s.outbox[k].attempt == a then OutboxRow(a, true) else s.outbox[k]
    ensures var s' := Step(s, Clean(i));
      && s'.notifications == s.notifications && s'.firsts == s.firsts && s'.handlers == s.handlers && s'.replies == s.replies
      && s'.outbox == if i in s.outbox && s.outbox[i].published then s.outbox - {i} else s.outbox
  {
  }

  lemma RunSnoc(events: seq<Event>, e: Event)
    ensures Run(events + [e]) == Step(Run(events), e)
  {
    assert (events + [e])[..|events|] == events;
  }

  lemma ComesAndGoes(handlers: map<nat, Handler>, h: nat, first: Handler, second: Handler)
    requires h !in handlers
    ensures handlers[h := first][h := second] - {h} == handlers
  {
  }

  // Alone and with new ids, a submission succeeds, whatever happened before.
  lemma NewSubmissionSucceeds(events: seq<Event>, h: nat, r: Request, attempt: nat, intent: nat, now: Time)
    requires var s := Run(events); h !in s.handlers && !Collides(s, r, attempt, intent, now)
    ensures var s, end := Run(events), Run(events + [Arrive(h, r)] + [Lookup(h)] + [Create(h, attempt, intent, now, true)]);
      && end.replies == s.replies + [Reply(r, Success(r.id))] && end.handlers == s.handlers
      && end.notifications == s.notifications[r.id := Row(r.tenant, r.key, r.channel)]
  {
    var s := Run(events);
    SubmissionAlways(events + [Arrive(h, r)]);
    RunSnoc(events, Arrive(h, r));
    RunSnoc(events + [Arrive(h, r)], Lookup(h));
    RunSnoc(events + [Arrive(h, r)] + [Lookup(h)], Create(h, attempt, intent, now, true));
    LookupAnswers(Run(events + [Arrive(h, r)]), h);
    CreateAnswers(Run(events + [Arrive(h, r)] + [Lookup(h)]), h, attempt, intent, now, true);
    ComesAndGoes(s.handlers, h, Handler(r, ToLookup), Handler(r, ToCreate));
  }

  // Posted again with the key of a stored notification, it is answered with that
  // one, whatever id, channel or schedule it asks for.
  lemma RepeatSucceeds(events: seq<Event>, h: nat, r: Request, n: nat, attempt: nat, intent: nat)
    requires var s := Run(events); h !in s.handlers && intent !in s.outbox
    requires var s := Run(events); r.key != "" && n in s.notifications && s.notifications[n].tenant == r.tenant && s.notifications[n].key == r.key
    ensures var s, end := Run(events), Run(events + [Arrive(h, r)] + [Lookup(h)] + [Ensure(h, attempt, intent, true)]);
      && end.replies == s.replies + [Reply(r, Success(n))] && end.handlers == s.handlers
      && end.notifications == s.notifications && end.firsts == s.firsts
  {
    var s := Run(events);
    SubmissionAlways(events + [Arrive(h, r)]);
    SubmissionAlways(events + [Arrive(h, r)] + [Lookup(h)]);
    RunSnoc(events, Arrive(h, r));
    RunSnoc(events + [Arrive(h, r)], Lookup(h));
    RunSnoc(events + [Arrive(h, r)] + [Lookup(h)], Ensure(h, attempt, intent, true));
    LookupAnswers(Run(events + [Arrive(h, r)]), h);
    EnsureAnswers(Run(events + [Arrive(h, r)] + [Lookup(h)]), h, attempt, intent, true);
    ComesAndGoes(s.handlers, h, Handler(r, ToLookup), Handler(r, ToEnsure(n)));
  }
}
