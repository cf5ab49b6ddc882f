// The submission handlers of Submission and the transactions of Transactions
// are about the same rows: what a handler's create and repair do to its tables
// is what the store's transactions do to theirs, generated ids aside.
module Refinement {
  import opened Wrappers
  import opened Rows
  import opened Transactions
  import opened Chain
  import S = Submission

  ghost predicate HasFirst(s: S.State, k: Key) {
    exists a :: S.IsFirst(s, k.notification, k.channel, a)
  }

  ghost predicate HasIntent(s: S.State, k: Key) {
    exists i, a :: S.Dispatches(s, i, a) && S.IsFirst(s, k.notification, k.channel, a)
  }

  // One notification in both: its row, its attempt numbered 1 with its marker,
  // and its intent.
  ghost predicate Agrees(s: S.State, db: Db, k: Key) {
    && (k in db.notifications <==> k.notification in s.notifications && s.notifications[k.notification].channel == k.channel)
    && (Initial(k) in db.attempts <==> HasFirst(s, k))
    && (Initial(k) in db.outbox <==> HasIntent(s, k))
    && (forall a :: S.IsFirst(s, k.notification, k.channel, a) ==> (IsEnqueued(db, Initial(k)) <==> s.firsts[a].enqueued))
  }

  ghost predicate Refines(s: S.State, db: Db) {
    forall k {:trigger Agrees(s, db, k)} :: Agrees(s, db, k)
  }

  // A repair that gets through does what EnsureInitial does.
  lemma RepairRefines(s: S.State, db: Db, h: nat, attempt: nat, intent: nat)
    requires S.SubmissionOk(s) && ChainOk(db) && Refines(s, db)
    requires h in s.handlers && s.handlers[h].phase.ToEnsure? && intent !in s.outbox
    ensures var existing := s.handlers[h].phase.existing;
      && existing in s.notifications
      && var tx := EnsureInitial(db, Key(existing, s.notifications[existing].channel));
      tx.Ok? && Refines(S.Step(s, S.Ensure(h, attempt, intent, true)), tx.value)
  {
    var n := s.handlers[h].phase.existing;
    assert S.HandlerOk(s.notifications, s.handlers[h]);
    var a := S.FirstIsThere(s, n);
    var key := Key(n, s.notifications[n].channel);
    assert Agrees(s, db, key) && S.IsFirst(s, n, key.channel, a);
    var t, db' := S.WithIntent(s, a, intent), EnsureInitial(db, key).value;
    forall k ensures Agrees(S.Step(s, S.Ensure(h, attempt, intent, true)), db', k) {
      assert Agrees(s, db, k);
      RepairAgrees(s, db, n, a, intent, k);
      SameTables(t, S.Step(s, S.Ensure(h, attempt, intent, true)), db', k);
    }
  }

  lemma SameTables(s: S.State, s': S.State, db: Db, k: Key)
    requires s'.notifications == s.notifications && s'.firsts == s.firsts && s'.outbox == s.outbox && Agrees(s, db, k)
    ensures Agrees(s', db, k)
  {
    forall a ensures S.IsFirst(s', k.notification, k.channel, a) <==> S.IsFirst(s, k.notification, k.channel, a) {}
    forall i, a ensures S.Dispatches(s', i, a) <==> S.Dispatches(s, i, a) {}
  }

  lemma RepairAgrees(s: S.State, db: Db, n: nat, a: nat, intent: nat, k: Key)
    requires S.TablesOk(s) && n in s.notifications && a in s.firsts && s.firsts[a].notification == n && intent !in s.outbox
    requires Agrees(s, db, k) && Agrees(s, db, Key(n, s.notifications[n].channel))
    requires Initial(Key(n, s.notifications[n].channel)) in db.attempts
    ensures var key := Key(n, s.notifications[n].channel);
      Agrees(S.WithIntent(s, a, intent), InsertIntent(db, Initial(key), FromInitial, db.attempts[Initial(key)].enqueuedAt), k)
  {
    var key := Key(n, s.notifications[n].channel);
    var s' := S.WithIntent(s, a, intent);
    var db' := InsertIntent(db, Initial(key), FromInitial, db.attempts[Initial(key)].enqueuedAt);
    forall b ensures S.IsFirst(s', k.notification, k.channel, b) <==> S.IsFirst(s, k.notification, k.channel, b) {}
    assert HasFirst(s', k) <==> HasFirst(s, k);
    assert S.IsFirst(s, n, key.channel, a);
    if k == key {
      if i :| S.Dispatches(s, i, a) {
        assert HasIntent(s', key);
      } else {
        assert S.Dispatches(s', intent, a) && S.IsFirst(s', n, key.channel, a);
        assert HasIntent(s', key);
      }
    } else {
      OtherIntents(s, s', a, intent, k);
    }
  }

  // The intent of one attempt says nothing about other notifications.
  lemma OtherIntents(s: S.State, s': S.State, a: nat, intent: nat, k: Key)
    requires a in s.firsts && !S.IsFirst(s, k.notification, k.channel, a) && s'.firsts == s.firsts
    requires intent !in s.outbox && (s'.outbox == s.outbox || exists p :: s'.outbox == s.outbox[intent := S.OutboxRow(a, p)])
    ensures HasIntent(s', k) <==> HasIntent(s, k)
  {
    if HasIntent(s, k) {
      var i, b :| S.Dispatches(s, i, b) && S.IsFirst(s, k.notification, k.channel, b);
      assert S.Dispatches(s', i, b) && S.IsFirst(s', k.notification, k.channel, b);
    }
    if HasIntent(s', k) {
      var i, b :| S.Dispatches(s', i, b) && S.IsFirst(s', k.notification, k.channel, b);
      assert S.Dispatches(s, i, b) && S.IsFirst(s, k.notification, k.channel, b);
    }
  }

  // A submission that is stored does what CreateNotification does with the same
  // schedule, none, ahead of the clock or already due.
  lemma SubmissionRefines(s: S.State, db: Db, h: nat, attempt: nat, intent: nat, now: Time, reported: bool)
    requires S.SubmissionOk(s) && ChainOk(db) && Refines(s, db)
    requires h in s.handlers && s.handlers[h].phase.ToCreate?
    requires S.CreateStep(s, h, attempt, intent, now, reported).notifications != s.notifications
    ensures var r := s.handlers[h].request;
      var tx := CreateNotification(db, Key(r.id, r.channel), r.scheduledFor, now);
      tx.Ok? && Refines(S.CreateStep(s, h, attempt, intent, now, reported), tx.value)
  {
    var r := s.handlers[h].request;
    var key := Key(r.id, r.channel);
    FreeSlot(s, db, r);
    var db' := CreateShape(db, key, r.scheduledFor, now);
    var s' := S.CreateStep(s, h, attempt, intent, now, reported);
    StoredShape(s, h, attempt, intent, now, reported);
    forall k ensures Agrees(s', db', k) {
      assert Agrees(s, db, k) && Agrees(s, db, key);
      CreateAgrees(s, s', db, db', key, attempt, intent, r.Due(now), k);
    }
  }

  // The tables with one more notification.
  ghost predicate Stored(s: S.State, s': S.State, key: Key, attempt: nat, intent: nat, due: bool) {
    && key.notification !in s.notifications && attempt !in s.firsts && (due ==> intent !in s.outbox)
    && s'.notifications.Keys == s.notifications.Keys + {key.notification}
    && (forall n :: n in s.notifications ==> s'.notifications[n] == s.notifications[n])
    && s'.notifications[key.notification].channel == key.channel
    && s'.firsts == s.firsts[attempt := S.First(key.notification, key.channel, false)]
    && s'.outbox == if due then s.outbox[intent := S.OutboxRow(attempt, false)] else s.outbox
  }

  lemma StoredShape(s: S.State, h: nat, attempt: nat, intent: nat, now: Time, reported: bool)
    requires h in s.handlers && s.handlers[h].phase.ToCreate?
    requires S.CreateStep(s, h, attempt, intent, now, reported).notifications != s.notifications
    ensures var r := s.handlers[h].request;
      Stored(s, S.CreateStep(s, h, attempt, intent, now, reported), Key(r.id, r.channel), attempt, intent, r.Due(now))
  {
  }

  lemma FreeSlot(s: S.State, db: Db, r: S.Request)
    requires S.TablesOk(s) && ChainOk(db) && Refines(s, db) && r.id !in s.notifications
    ensures var key := Key(r.id, r.channel);
      && !IdTaken(db, key) && !SlotTaken(db, Initial(key), key, 1)
      && Initial(key) !in db.attempts && Initial(key) !in db.outbox
  {
    assert Agrees(s, db, Key(r.id, Webhook)) && Agrees(s, db, Key(r.id, Email));
    NoFirst(s, db, Key(r.id, r.channel));
  }

  // Without its row a notification has no attempt to clash with.
  lemma NoFirst(s: S.State, db: Db, key: Key)
    requires S.TablesOk(s) && ChainOk(db) && key.notification !in s.notifications && Agrees(s, db, key)
    ensures !SlotTaken(db, Initial(key), key, 1)
  {
    forall a ensures !S.IsFirst(s, key.notification, key.channel, a) {}
    forall b | b in db.attempts && db.attempts[b].number == 1 ensures db.attempts[b].key != key {
      assert AttemptOk(db, b);
    }
  }

  lemma CreateShape(db: Db, key: Key, scheduledFor: Option<Time>, now: Time) returns (db': Db)
    requires !IdTaken(db, key) && !SlotTaken(db, Initial(key), key, 1) && Initial(key) !in db.outbox
    ensures CreateNotification(db, key, scheduledFor, now) == Ok(db')
    ensures db'.notifications.Keys == db.notifications.Keys + {key}
    ensures db'.attempts == db.attempts[Initial(key) := Attempt(key, 1, Pending, None, None)]
    ensures db'.outbox.Keys == if scheduledFor.None? || scheduledFor.value <= now then db.outbox.Keys + {Initial(key)} else db.outbox.Keys
  {
    db' := CreateNotification(db, key, scheduledFor, now).value;
  }

  lemma CreateAgrees(s: S.State, s': S.State, db: Db, db': Db, key: Key, attempt: nat, intent: nat, due: bool, k: Key)
    requires S.TablesOk(s) && Stored(s, s', key, attempt, intent, due) && Agrees(s, db, k) && Agrees(s, db, key)
    requires db'.notifications.Keys == db.notifications.Keys + {key}
    requires db'.attempts == db.attempts[Initial(key) := Attempt(key, 1, Pending, None, None)]
    requires db'.outbox.Keys == if due then db.outbox.Keys + {Initial(key)} else db.outbox.Keys
    requires Initial(key) !in db.attempts && Initial(key) !in db.outbox
    ensures Agrees(s', db', k)
  {
    forall b ensures !S.IsFirst(s, key.notification, key.channel, b) {}
    CreateFirsts(s, s', key, attempt, intent, due, k);
    CreateIntents(s, s', key, attempt, intent, due, k);
    CreateRows(s, s', db, db', key, attempt, intent, due, k);
    CreateMarkers(s, s', db, db', key, attempt, intent, due, k);
  }

  lemma CreateRows(s: S.State, s': S.State, db: Db, db': Db, key: Key, attempt: nat, intent: nat, due: bool, k: Key)
    requires Stored(s, s', key, attempt, intent, due) && Agrees(s, db, k)
    requires db'.notifications.Keys == db.notifications.Keys + {key}
    ensures k in db'.notifications <==> k.notification in s'.notifications && s'.notifications[k.notification].channel == k.channel
  {
    assert k in db'.notifications <==> k in db.notifications || k == key;
    assert k.notification in s'.notifications <==> k.notification in s.notifications || k.notification == key.notification;
  }

  lemma CreateMarkers(s: S.State, s': S.State, db: Db, db': Db, key: Key, attempt: nat, intent: nat, due: bool, k: Key)
    requires Stored(s, s', key, attempt, intent, due) && Agrees(s, db, k) && !S.IsFirst(s, k.notification, k.channel, attempt)
    requires db'.attempts == db.attempts[Initial(key) := Attempt(key, 1, Pending, None, None)]
    requires k == key ==> forall b :: !S.IsFirst(s, k.notification, k.channel, b)
    ensures forall b :: S.IsFirst(s', k.notification, k.channel, b) ==> (IsEnqueued(db', Initial(k)) <==> s'.firsts[b].enqueued)
  {
    forall b | S.IsFirst(s', k.notification, k.channel, b) ensures IsEnqueued(db', Initial(k)) <==> s'.firsts[b].enqueued {
      if b == attempt {
        assert k == key;
      } else {
        assert S.IsFirst(s, k.notification, k.channel, b);
        assert IsEnqueued(db', Initial(k)) <==> IsEnqueued(db, Initial(k));
      }
    }
  }

  lemma CreateFirsts(s: S.State, s': S.State, key: Key, attempt: nat, intent: nat, due: bool, k: Key)
    requires Stored(s, s', key, attempt, intent, due)
    ensures HasFirst(s', k) <==> HasFirst(s, k) || k == key
    ensures forall b :: S.IsFirst(s', k.notification, k.channel, b) <==>
      S.IsFirst(s, k.notification, k.channel, b) || (b == attempt && k == key)
  {
    assert S.IsFirst(s', key.notification, key.channel, attempt);
    forall b ensures S.IsFirst(s', k.notification, k.channel, b) <==>
      S.IsFirst(s, k.notification, k.channel, b) || (b == attempt && k == key) {
    }
    if HasFirst(s, k) {
      var b :| S.IsFirst(s, k.notification, k.channel, b);
      assert S.IsFirst(s', k.notification, k.channel, b);
    } else if HasFirst(s', k) {
      var b :| S.IsFirst(s', k.notification, k.channel, b);
      assert !S.IsFirst(s, k.notification, k.channel, b);
    }
  }

  lemma CreateIntents(s: S.State, s': S.State, key: Key, attempt: nat, intent: nat, due: bool, k: Key)
    requires S.TablesOk(s) && Stored(s, s', key, attempt, intent, due)
    requires forall b :: !S.IsFirst(s, key.notification, key.channel, b)
    ensures HasIntent(s', k) <==> HasIntent(s, k) || (due && k == key)
  {
    if HasIntent(s, k) {
      var i, b :| S.Dispatches(s, i, b) && S.IsFirst(s, k.notification, k.channel, b);
      assert S.Dispatches(s', i, b) && S.IsFirst(s', k.notification, k.channel, b);
    }
    if HasIntent(s', k) {
      var i, b :| S.Dispatches(s', i, b) && S.IsFirst(s', k.notification, k.channel, b);
      KeptIntent(s, s', key, attempt, intent, due, k, i, b);
    }
    if due { assert S.Dispatches(s', intent, attempt) && S.IsFirst(s', key.notification, key.channel, attempt); }
  }

  lemma KeptIntent(s: S.State, s': S.State, key: Key, attempt: nat, intent: nat, due: bool, k: Key, i: nat, b: nat)
    requires S.TablesOk(s) && Stored(s, s', key, attempt, intent, due)
    requires S.Dispatches(s', i, b) && S.IsFirst(s', k.notification, k.channel, b)
    ensures HasIntent(s, k) || (due && k == key)
  {
    if !(due && i == intent) {
      assert S.Dispatches(s, i, b) && b in s.firsts;
      assert S.IsFirst(s, k.notification, k.channel, b);
    }
  }
}
