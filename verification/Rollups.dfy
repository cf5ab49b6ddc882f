// The status a notification reports, derived from its attempts: what the loop
// computes, that the order of the attempts does not matter, and what it says
// about the histories the protocol can produce.
module Rollups {
  import opened Rows
  import opened Protocol
  import opened Chain
  import opened Token

  predicate IsActive(status: AttemptStatus) {
    status in {Pending, InProgress, RetryScheduled}
  }

  predicate HasActive(statuses: seq<AttemptStatus>) {
    Pending in statuses || InProgress in statuses || RetryScheduled in statuses
  }

  // The four flags and the switch over them.
  function Verdict(statuses: seq<AttemptStatus>): Rollup {
    var sent, lettered, failed := Sent in statuses, DeadLettered in statuses, Failed in statuses;
    var active := HasActive(statuses);
    if sent && (lettered || failed || active) then PartiallyDelivered
    else if sent then Rollup.Delivered
    else if active then Processing
    else if lettered then AllDeadLettered
    else if failed then AllFailed
    else Accepted
  }

  lemma Partition(statuses: seq<AttemptStatus>)
    ensures var r := Verdict(statuses);
      && (r == Accepted <==> statuses == [])
      && (r == Rollup.Delivered <==> statuses != [] && forall s :: s in statuses ==> s == Sent)
      && (r == PartiallyDelivered <==> Sent in statuses && exists s :: s in statuses && s != Sent)
      && (r == Processing <==>
            Sent !in statuses && (Pending in statuses || InProgress in statuses || RetryScheduled in statuses))
      && (r == AllDeadLettered <==>
            DeadLettered in statuses && forall s :: s in statuses ==> s in {DeadLettered, Failed})
      && (r == AllFailed <==> statuses != [] && forall s :: s in statuses ==> s == Failed)
  {
    if statuses != [] { assert statuses[0] in statuses; }
    if forall s :: s in statuses ==> s == Sent {
      assert !HasActive(statuses) && DeadLettered !in statuses && Failed !in statuses;
    } else {
      var s :| s in statuses && s != Sent;
      assert s in {DeadLettered, Failed} || HasActive(statuses);
    }
    if !HasActive(statuses) && Sent !in statuses {
      assert forall s :: s in statuses ==> s in {DeadLettered, Failed};
    }
  }

  method DeriveNotificationStatus(statuses: seq<AttemptStatus>) returns (r: Rollup)
    ensures r == Verdict(statuses)
    ensures r == Accepted <==> statuses == []
    ensures r == Rollup.Delivered <==> statuses != [] && forall s :: s in statuses ==> s == Sent
    ensures r == PartiallyDelivered <==> Sent in statuses && exists s :: s in statuses && s != Sent
    ensures r == Processing <==>
      Sent !in statuses && (Pending in statuses || InProgress in statuses || RetryScheduled in statuses)
    ensures r == AllDeadLettered <==>
      DeadLettered in statuses && forall s :: s in statuses ==> s in {DeadLettered, Failed}
    ensures r == AllFailed <==> statuses != [] && forall s :: s in statuses ==> s == Failed
  {
    Partition(statuses);
    if |statuses| == 0 {
      return Accepted;
    }
    var sent, lettered, failed, active := false, false, false, false;
    for i := 0 to |statuses|
      invariant sent <==> Sent in statuses[..i]
      invariant lettered <==> DeadLettered in statuses[..i]
      invariant failed <==> Failed in statuses[..i]
      invariant active <==> HasActive(statuses[..i])
    {
      assert statuses[..i + 1] == statuses[..i] + [statuses[i]];
      match statuses[i]
      case Sent => sent := true;
      case DeadLettered => lettered := true;
      case Failed => failed := true;
      case _ => active := true;
    }
    assert statuses[..|statuses|] == statuses;
    if sent && (lettered || failed || active) {
      return PartiallyDelivered;
    } else if sent {
      return Rollup.Delivered;
    } else if active {
      return Processing;
    } else if lettered {
      return AllDeadLettered;
    } else if failed {
      return AllFailed;
    }
    return Accepted;
  }

  // The order of the attempts, and how often a status occurs, do not matter.
  lemma OrderDoesNotMatter(x: seq<AttemptStatus>, y: seq<AttemptStatus>)
    requires forall s :: s in x <==> s in y
    ensures Verdict(x) == Verdict(y)
  {
    assert HasActive(x) <==> HasActive(y);
  }

  // ------------------------------------------------------ reachable histories

  // Every attempt of the notification, once, in some order.
  ghost predicate Lists(db: Db, key: Key, attempts: seq<AttemptId>) {
    && (forall a :: a in attempts <==> a in db.attempts && db.attempts[a].key == key)
    && (forall i, j :: 0 <= i < j < |attempts| ==> attempts[i] != attempts[j])
  }

  function Statuses(db: Db, attempts: seq<AttemptId>): (s: seq<AttemptStatus>)
    requires forall a :: a in attempts ==> a in db.attempts
    ensures |s| == |attempts| && forall i :: 0 <= i < |s| ==> s[i] == db.attempts[attempts[i]].status
  {
    seq(|attempts|, i requires 0 <= i < |attempts| => db.attempts[attempts[i]].status)
  }

  // Only the last attempt of a chain can be anything but failed or dead-lettered.
  lemma EarlierOnesAreOver(db: Db, key: Key, b: AttemptId)
    requires ChainOk(db) && key in db.notifications
    requires b in db.attempts && db.attempts[b].key == key && b != Leaf(db, key)
    ensures db.attempts[b].status in {Failed, DeadLettered}
  {
    assert AttemptOk(db, b);
    if IsLeaf(db, b) {
      LeafUnique(db, b, Leaf(db, key));
    } else {
      var c :| c in db.attempts && !c.Initial? && Parent(c) == b;
      assert AttemptOk(db, c);
    }
  }

  lemma AloneIffFirst(db: Db, key: Key, attempts: seq<AttemptId>)
    requires ChainOk(db) && key in db.notifications && Lists(db, key, attempts)
    ensures Leaf(db, key) in attempts
    ensures |attempts| == 1 <==> Leaf(db, key).Initial?
    ensures |attempts| != 1 ==> exists b :: b in attempts && b != Leaf(db, key)
  {
    var leaf := Leaf(db, key);
    assert AttemptOk(db, leaf);
    var i :| 0 <= i < |attempts| && attempts[i] == leaf;
    assert |attempts| > 1 ==> attempts[0] != attempts[1];
    if leaf.Initial? {
      forall j | 0 <= j < |attempts| ensures attempts[j] == leaf {
        assert attempts[j] in attempts;
        assert AttemptOk(db, attempts[j]);
        LeafBounds(db, leaf, attempts[j]);
        OnePerSlot(db, leaf, attempts[j]);
      }
    } else {
      assert AttemptOk(db, Parent(leaf));
      assert Parent(leaf) in attempts && Depth(Parent(leaf)) != Depth(leaf);
    }
  }

  lemma LastDecides(statuses: seq<AttemptStatus>, i: nat)
    requires i < |statuses| && forall j :: 0 <= j < |statuses| && j != i ==> statuses[j] in {Failed, DeadLettered}
    ensures Verdict(statuses) ==
      if statuses[i] == Sent then (if |statuses| == 1 then Rollup.Delivered else PartiallyDelivered)
      else if IsActive(statuses[i]) then Processing
      else if DeadLettered in statuses then AllDeadLettered
      else AllFailed
  {
    assert statuses[i] in statuses;
    if |statuses| > 1 {
      var j := if i == 0 then 1 else 0;
      assert statuses[j] in statuses;
    }
  }

  lemma OthersAreOver(db: Db, key: Key, attempts: seq<AttemptId>) returns (i: nat)
    requires ChainOk(db) && key in db.notifications && Lists(db, key, attempts)
    ensures i < |attempts| && attempts[i] == Leaf(db, key)
    ensures forall j :: 0 <= j < |attempts| && j != i ==> db.attempts[attempts[j]].status in {Failed, DeadLettered}
  {
    AloneIffFirst(db, key, attempts);
    i :| 0 <= i < |attempts| && attempts[i] == Leaf(db, key);
    forall j | 0 <= j < |attempts| && j != i ensures db.attempts[attempts[j]].status in {Failed, DeadLettered} {
      assert attempts[j] in attempts;
      EarlierOnesAreOver(db, key, attempts[j]);
    }
  }

  // On every history the protocol can produce the rollup follows the last
  // attempt: sent, it is delivered exactly when it was the only one; active, the
  // notification is processing; otherwise one dead letter decides.
  lemma RollupFollowsLast(acts: seq<Action>, key: Key, attempts: seq<AttemptId>)
    requires key in Exec(acts).db.notifications && Lists(Exec(acts).db, key, attempts)
    ensures ChainOk(Exec(acts).db)
    ensures var db := Exec(acts).db;
      var statuses := Statuses(db, attempts);
      var last := db.attempts[Leaf(db, key)].status;
      Verdict(statuses) ==
        if last == Sent then (if |attempts| == 1 then Rollup.Delivered else PartiallyDelivered)
        else if IsActive(last) then Processing
        else if DeadLettered in statuses then AllDeadLettered
        else AllFailed
  {
    Always(acts);
    var i := OthersAreOver(Exec(acts).db, key, attempts);
    LastDecides(Statuses(Exec(acts).db, attempts), i);
  }
}
