/** The queue of deliveries, column by column: what is claimed, and that whatever waits is claimed once
    it is due. */
module Queue {
  import opened Planning
  import opened QuietHours
  import opened Contracts
  import opened Retry
  import opened Store
  import opened Runs
  import opened Attempts

  /** The rows a worker could send now. */
  function WaitingBy(db: Tables, now: int): set<DeliveryKey> {
    set k | k in db.deliveries
            && (db.deliveries[k].status == Pending || db.deliveries[k].status == Snoozed)
            && db.deliveries[k].nextAttemptAt <= now
            && (db.deliveries[k].lockedUntil.None? || db.deliveries[k].lockedUntil.value < now)
  }

  /** A claim takes the whole queue if there is room for it, and otherwise fills its batch with those due
      longest, ties broken by id. */
  lemma ClaimTakesDue(db: Tables, ids: DeliveryKey -> int, now: int, limit: nat, batch: set<DeliveryKey>)
    requires IsClaim(db, ids, now, limit, batch)
    ensures batch <= WaitingBy(db, now)
    ensures |WaitingBy(db, now)| <= limit ==> batch == WaitingBy(db, now)
    ensures |WaitingBy(db, now)| > limit ==> |batch| == limit
    ensures forall k, j :: k in batch && j in WaitingBy(db, now) && j !in batch ==>
              var a, b := db.deliveries[k].nextAttemptAt, db.deliveries[j].nextAttemptAt;
              a < b || (a == b && ids(k) <= ids(j))
  {
    var due := WaitingBy(db, now);
    assert due == set k | k in db.deliveries && Claimable(db.deliveries[k], now);
    hide WaitingBy, Claimable;
    SameSize(batch, due);
    forall k, j | k in batch && j in due && j !in batch ensures IsQueuedBefore(db, ids, k, j) {
      assert j in due - batch;
    }
  }

  lemma SameSize(some: set<DeliveryKey>, all: set<DeliveryKey>)
    requires some <= all
    ensures |some| == |all| ==> some == all
  {
    if some != all {
      var k :| k in all && k !in some;
      SubsetOfRest(some, all, k);
    }
  }

  lemma SubsetOfRest(some: set<DeliveryKey>, all: set<DeliveryKey>, k: DeliveryKey)
    requires some <= all && k in all && k !in some
    ensures |some| < |all|
  {
    assert all == some + (all - some);
  }

  /** From then on every claim with room for all that waits takes the row, wherever it stands. */
  ghost predicate IsTakenFrom(d: Delivery, moment: int) {
    forall db, ids, now, limit, batch, k ::
      IsClaim(db, ids, now, limit, batch) && k in db.deliveries && db.deliveries[k] == d && moment <= now
      && |WaitingBy(db, now)| <= limit
      ==> k in batch
  }

  lemma TakenOnceDue(d: Delivery, moment: int)
    requires d.status == Pending || d.status == Snoozed
    requires d.nextAttemptAt <= moment && (d.lockedUntil.Some? ==> d.lockedUntil.value < moment)
    ensures IsTakenFrom(d, moment)
  {
    hide IsClaim;
    forall db, ids, now, limit, batch, k |
      IsClaim(db, ids, now, limit, batch) && k in db.deliveries && db.deliveries[k] == d && moment <= now
      && |WaitingBy(db, now)| <= limit
      ensures k in batch
    {
      ClaimTakesDue(db, ids, now, limit, batch);
      assert k in WaitingBy(db, now);
    }
  }

  /** A new delivery is claimed from the moment of its occurrence on. */
  lemma FreshIsTaken(fireAt: int)
    ensures IsTakenFrom(FreshDelivery(fireAt), fireAt)
  {
    TakenOnceDue(FreshDelivery(fireAt), fireAt);
  }

  /** One that failed is claimed again when its delay is over, for as long as it has attempts left; one
      held back by flood control a second after the time that was asked for. */
  lemma RefusedIsTaken(d: Delivery, f: Flight, now: int, result: SendResult)
    requires AbortFor(f.view).None? && result.Refused?
    ensures result.error == Transient && 1 <= f.attempts < 5
            ==> IsTakenFrom(SettledRow(d, f, now, result), now + Backoff(f.attempts))
    ensures result.error == RetryAfter && result.retryAfter.Some? && result.retryAfter.value >= 0
            ==> IsTakenFrom(SettledRow(d, f, now, result), now + (result.retryAfter.value + 1) * 1_000_000)
  {
    hide Backoff, IsTakenFrom;
    var e := SettledRow(d, f, now, result);
    if result.error == Transient && 1 <= f.attempts < 5 {
      TakenOnceDue(e, now + Backoff(f.attempts));
    }
    if result.error == RetryAfter && result.retryAfter.Some? && result.retryAfter.value >= 0 {
      TakenOnceDue(e, now + (result.retryAfter.value + 1) * 1_000_000);
    }
  }

  /** One that a sweep takes back for a repeat is claimed when the repeat is due. */
  lemma RequeuedIsTaken(db: Tables, overdue: set<OccurrenceKey>, candidates: set<DeliveryKey>, now: int, k: DeliveryKey)
    requires Requeued(db, Sweep(db, overdue, candidates, now), k)
    ensures k in Sweep(db, overdue, candidates, now).deliveries
    ensures var e := Sweep(db, overdue, candidates, now).deliveries[k];
      now <= e.nextAttemptAt && IsTakenFrom(e, e.nextAttemptAt)
  {
    hide IsTakenFrom, Sweep, KeepsSilence, Covers;
    RequeuedInTime(db, overdue, candidates, now, k);
    RequeuedIsFree(db, overdue, candidates, now, k);
    var e := Sweep(db, overdue, candidates, now).deliveries[k];
    TakenOnceDue(e, e.nextAttemptAt);
  }

  lemma RequeuedIsFree(db: Tables, overdue: set<OccurrenceKey>, candidates: set<DeliveryKey>, now: int, k: DeliveryKey)
    requires Requeued(db, Sweep(db, overdue, candidates, now), k)
    ensures Sweep(db, overdue, candidates, now).deliveries[k].lockedUntil.None?
  {
    hide RepeatMoment, IsRepeatCandidate;
  }

  /** One whose worker died is claimed again once the lease has run out. */
  lemma StaleIsTaken(d: Delivery, until: int)
    requires d.status == Pending || d.status == Snoozed
    ensures IsTakenFrom(ClaimRow(d, until), if until < d.nextAttemptAt then d.nextAttemptAt else until + 1)
  {
    hide IsTakenFrom;
    TakenOnceDue(ClaimRow(d, until), if until < d.nextAttemptAt then d.nextAttemptAt else until + 1);
  }

  /** And one snoozed by its recipient, when the snooze is over. */
  lemma SnoozedIsTaken(db: Tables, key: DeliveryKey, user: int, now: int)
    requires React(db, key, user, SnoozeAction, now).1 == Applied
    ensures key in React(db, key, user, SnoozeAction, now).0.deliveries
    ensures var e := React(db, key, user, SnoozeAction, now).0.deliveries[key];
      e.snoozedUntil.Some? && now < e.snoozedUntil.value && IsTakenFrom(e, e.snoozedUntil.value)
  {
    var r := TapShape(db, key, user, SnoozeAction, now);
    hide React, IsTakenFrom, AllTerminal;
    var e := React(db, key, user, SnoozeAction, now).0.deliveries[key];
    TakenOnceDue(e, e.snoozedUntil.value);
  }
}
