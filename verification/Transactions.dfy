/** Reactions, the planner, pausing, editing and sharing, as transactions on the mutable tables. */
module Transactions {
  import opened Zones
  import opened Ordering
  import opened Schedules
  import opened Recurrence
  import opened Planning
  import opened QuietHours
  import opened Contracts
  import opened Reactions
  import opened Store
  import opened Runs
  import opened Invariants
  import opened Services

  class ReactionsService {
    const db: Database

    constructor (db: Database)
      ensures this.db == db
    {
      this.db := db;
    }

    /** `_write`: the answer, the lease it drops, and its line in the journal. */
    method Write(key: DeliveryKey, kind: ActionKind, reaction: Reaction, now: int)
      requires key in db.deliveries
      modifies db`deliveries
      ensures db.deliveries == old(db.deliveries)[key := ReactRow(old(db.deliveries)[key], kind, reaction, now)]
    {
      var row := db.deliveries[key].(status := reaction.status, lockedUntil := None);
      if reaction.reactedAt.Some? {
        row := row.(reactedAt := reaction.reactedAt);
      }
      if reaction.snoozedUntil.Some? {
        row := row.(snoozedUntil := reaction.snoozedUntil, nextAttemptAt := reaction.snoozedUntil.value);
      }
      db.deliveries := db.deliveries[key := row];
      db.deliveries := db.deliveries[key := db.deliveries[key].(actions := db.deliveries[key].actions + [Action(kind,
        now)])];
    }

    /** `_close_occurrence`: rolled up once its last recipient has answered. */
    method CloseOccurrence(o: OccurrenceKey, kind: ActionKind, status: DeliveryStatus)
      requires o in db.occurrences
      modifies db`occurrences
      ensures var closing := if IsTerminal(status) then RollUp(kind, AllTerminal(db.deliveries, o)) else None;
        db.occurrences == if closing.None? then old(db.occurrences)
                          else old(db.occurrences)[o := old(db.occurrences)[o].(status := closing.value)]
    {
      if !IsTerminal(status) {
        return;
      }
      var closing := RollUp(kind, AllTerminal(db.deliveries, o));
      if closing.Some? {
        db.occurrences := db.occurrences[o := db.occurrences[o].(status := closing.value)];
      }
    }

    method React(key: DeliveryKey, user: int, kind: ActionKind, now: int) returns (outcome: ReactOutcome)
      modifies db`deliveries, db`occurrences
      ensures (db.Rows(), outcome) == Store.React(old(db.Rows()), key, user, kind, now)
    {
      hide ReactRow, AllTerminal, CheckReactable, DecideReaction, RollUp;
      if key !in db.deliveries {
        return NotFound;
      }
      if key.user != user {
        return NotYours;
      }
      if !HasContext(db.Rows(), key) {
        return NotFound;
      }
      var d, o := db.deliveries[key], db.occurrences[key.occurrence];
      var reason := CheckReactable(kind, d.status, o.status, o.expiresAt, d.snoozedUntil, now);
      if reason.Some? {
        return Rejected(reason.value);
      }
      var reaction := DecideReaction(kind, now, db.reminders[key.occurrence.reminder].snoozeMinutes,
                                     db.users[user].quiet, o.expiresAt);
      if reaction.None? {
        return Invalid;
      }
      Write(key, kind, reaction.value, now);
      CloseOccurrence(key.occurrence, kind, reaction.value.status);
      return Applied;
    }
  }

  // ---------------------------------------------------------------------------------------------
  // Pause, resume, edit
  // ---------------------------------------------------------------------------------------------

  class RemindersService {
    const db: Database

    constructor (db: Database)
      ensures this.db == db
    {
      this.db := db;
    }

    /** `_drop_queued`: `delete_unsent` with its cascade, then `reset_planning`. */
    method DropQueuedRows(reminder: int)
      requires reminder in db.reminders
      modifies db`occurrences, db`deliveries, db`reminders
      ensures db.Rows() == DropQueued(old(db.Rows()), reminder)
    {
      hide IsUnsent;
      var dropped := Unsent(db.Rows(), reminder);
      db.occurrences := db.occurrences - dropped;
      db.deliveries := map k | k in db.deliveries && k.occurrence !in dropped :: db.deliveries[k];
      var r := db.reminders[reminder];
      db.reminders := db.reminders[reminder := r.(plannedUntil := None,
                                                  firedCount := Max(r.firedCount - |dropped|, 0))];
    }

    method ChangeStatus(owner: int, reminder: int, status: ReminderStatus) returns (outcome: EditOutcome)
      modifies db`occurrences, db`deliveries, db`reminders
      ensures (db.Rows(), outcome) == SetStatus(old(db.Rows()), owner, reminder, status)
    {
      hide DropQueued;
      outcome := EditableBy(db.Rows(), owner, reminder);
      if outcome != Edited {
        return;
      }
      db.reminders := db.reminders[reminder := db.reminders[reminder].(status := status)];
      if status != Active {
        DropQueuedRows(reminder);
      }
    }

    /** `update` with a new schedule, which must have something ahead of it. */
    method Reschedule(owner: int, reminder: int, schedule: Schedule, now: int) returns (outcome: EditOutcome)
      modifies db`occurrences, db`deliveries, db`reminders
      ensures (db.Rows(), outcome) == ReplaceSchedule(old(db.Rows()), owner, reminder, schedule, now)
    {
      hide DropQueued, Expansion;
      outcome := EditableBy(db.Rows(), owner, reminder);
      if outcome != Edited {
        return;
      }
      var r := db.reminders[reminder];
      var after := Max(r.startsAt, now);
      var moments := NextOccurrences(schedule, r.zone, after - BOUNDARY, after + MAX_DAYS_AHEAD * DAY, 1);
      if moments == [] {
        return Exhausted;
      }
      db.reminders := db.reminders[reminder := r.(schedule := schedule)];
      DropQueuedRows(reminder);
    }
  }

  // ---------------------------------------------------------------------------------------------
  // Sharing
  // ---------------------------------------------------------------------------------------------

  class SharingService {
    const db: Database

    constructor (db: Database)
      ensures this.db == db
    {
      this.db := db;
    }

    method Open(reminder: int, user: int)
      requires user in db.users
      modifies db`recipients
      ensures db.Rows() == OpenInvite(old(db.Rows()), reminder, user)
    {
      hide Watchers;
      var key := RecipientKey(reminder, user);
      if reminder !in db.reminders || key in db.recipients {
        return;
      }
      if |Watchers(db.Rows(), reminder)| >= WATCHERS_MAX {
        return;
      }
      db.recipients := db.recipients[key := Recipient(Watcher, None)];
    }

    /** `_backfill_deliveries`: whatever was materialised before the recipient joined. */
    method Backfill(reminder: int, user: int, now: int) returns (created: nat)
      modifies db`deliveries
      ensures db.deliveries
              == InsertDeliveries(old(db.deliveries), db.occurrences, Upcoming(db.Rows(), reminder, now), {user})
      ensures |db.deliveries| == |old(db.deliveries)| + created
    {
      var upcoming := Upcoming(db.Rows(), reminder, now);
      UpcomingExist(db.Rows(), reminder, now);
      hide Upcoming, InsertDeliveries;
      var rows := InsertDeliveries(db.deliveries, db.occurrences, upcoming, {user});
      DeliveriesGrow(db.deliveries, db.occurrences, upcoming, {user});
      created := |rows| - |db.deliveries|;
      db.deliveries := rows;
    }

    /** Accepting twice moves nothing: only a row still pending is touched. */
    method Accept(user: int, reminder: int, now: int)
      modifies db`recipients, db`deliveries
      ensures db.Rows() == AcceptInvite(old(db.Rows()), user, reminder, now)
    {
      var key := RecipientKey(reminder, user);
      if key !in db.recipients || db.recipients[key].role != Watcher {
        return;
      }
      if db.recipients[key].acceptedAt.None? {
        ghost var before := db.Rows();
        db.recipients := db.recipients[key := Recipient(Watcher, Some(now))];
        SameUpcoming(before, db.Rows(), reminder, now);
        hide Upcoming, InsertDeliveries;
        var backfilled := Backfill(reminder, user, now);
      }
    }

    /** `remove_watcher`, which is all there is to declining. */
    method Decline(user: int, reminder: int)
      modifies db`recipients
      ensures db.Rows() == RemoveWatcher(old(db.Rows()), user, reminder)
    {
      var key := RecipientKey(reminder, user);
      if key in db.recipients && db.recipients[key].role == Watcher {
        db.recipients := db.recipients - {key};
      }
    }

    method LeaveReminder(user: int, reminder: int)
      modifies db`recipients, db`deliveries
      ensures db.Rows() == Leave(old(db.Rows()), user, reminder)
    {
      db.deliveries := map k | k in db.deliveries
        && !IsQueuedFor(k, db.deliveries[k], reminder, user) :: db.deliveries[k];
      Decline(user, reminder);
    }
  }

  lemma SameUpcoming(a: Tables, b: Tables, reminder: int, now: int)
    requires a.occurrences == b.occurrences
    ensures Upcoming(a, reminder, now) == Upcoming(b, reminder, now)
  {
  }

  lemma KeysSize<K, V>(rows: map<K, V>)
    ensures |rows| == |rows.Keys|
  {
  }

  lemma DeliveriesGrow(rows: map<DeliveryKey, Delivery>, occurrences: map<OccurrenceKey, Occurrence>,
                       keys: set<OccurrenceKey>,
                       users: set<int>)
    requires keys <= occurrences.Keys
    ensures |rows| <= |InsertDeliveries(rows, occurrences, keys, users)|
  {
    var after := InsertDeliveries(rows, occurrences, keys, users);
    KeysSize(rows);
    KeysSize(after);
    SubsetIsSmaller(rows.Keys, after.Keys);
  }

  // ---------------------------------------------------------------------------------------------
  // planner.materialize
  // ---------------------------------------------------------------------------------------------

  datatype PlanningResult = PlanningResult(processed: nat, occurrencesCreated: nat, deliveriesCreated: nat,
                                           archived: nat)

  /** The rows of one cycle's reminders, one after the other; a reminder whose owner is gone is left
      alone. */
  ghost function MaterializeAll(db: Tables, due: seq<int>, horizonEnd: int, ttl: nat): Tables {
    if due == [] then db
    else
      var before, last := MaterializeAll(db, due[..|due| - 1], horizonEnd, ttl), due[|due| - 1];
      if last in before.reminders then MaterializeOne(before, last, horizonEnd, ttl) else before
  }

  /** The reminders of the batch whose cycle leaves them nothing to plan. */
  ghost function ArchivedIn(db: Tables, due: seq<int>, horizonEnd: int, ttl: nat): nat {
    if due == [] then 0
    else
      var init, last := due[..|due| - 1], due[|due| - 1];
      ArchivedIn(db, init, horizonEnd, ttl) + if IsLastCycle(MaterializeAll(db, init, horizonEnd, ttl), last,
                                                             horizonEnd) then 1 else 0
  }

  ghost predicate IsLastCycle(db: Tables, reminder: int, horizonEnd: int) {
    && reminder in db.reminders && db.reminders[reminder].owner in db.users
    && !PlanOf(db, reminder).Cycle(horizonEnd).active
  }

  lemma ArchivedNext(db: Tables, due: seq<int>, i: nat, horizonEnd: int, ttl: nat)
    requires i < |due|
    ensures ArchivedIn(db, due[..i + 1], horizonEnd, ttl)
            == ArchivedIn(db, due[..i], horizonEnd, ttl)
               + if IsLastCycle(MaterializeAll(db, due[..i], horizonEnd, ttl), due[i], horizonEnd) then 1 else 0
  {
    hide MaterializeAll, IsLastCycle;
    assert due[..i + 1][..i] == due[..i];
  }

  lemma MaterializeNext(db: Tables, due: seq<int>, i: nat, horizonEnd: int, ttl: nat)
    requires i < |due|
    ensures var before := MaterializeAll(db, due[..i], horizonEnd, ttl);
      MaterializeAll(db, due[..i + 1], horizonEnd, ttl)
      == if due[i] in before.reminders then MaterializeOne(before, due[i], horizonEnd, ttl) else before
  {
    hide MaterializeOne;
    assert due[..i + 1][..i] == due[..i];
  }

  lemma InsertedKeys(rows: map<OccurrenceKey, Occurrence>, reminder: int, moments: seq<int>, quiet: Quiet, ttl: nat)
    ensures InsertOccurrences(rows, reminder, moments, quiet, ttl).Keys == rows.Keys + KeysOf(reminder, moments)
  {
    hide FreshOccurrence, KeysOf;
  }

  lemma MergedRows(rows: map<OccurrenceKey, Occurrence>, before: map<OccurrenceKey, Occurrence>, reminder: int,
                   moments: seq<int>,
                   quiet: Quiet, ttl: nat)
    requires rows.Keys == KeysOf(reminder, moments)
    requires forall k :: k in rows ==> rows[k] == FreshOccurrence(quiet, k.scheduledFor, ttl)
    ensures rows + before == InsertOccurrences(before, reminder, moments, quiet, ttl)
  {
    hide FreshOccurrence, KeysOf;
    forall k ensures k in rows <==> k in KeysOf(reminder, moments) {
      assert k in rows <==> k in rows.Keys;
    }
  }

  lemma KeysForReminder(a: Tables, b: Tables, reminder: int, added: set<OccurrenceKey>)
    requires b.occurrences.Keys == a.occurrences.Keys + added
    requires forall k :: k in added ==> k.reminder == reminder
    ensures KeysFor(b, reminder) == KeysFor(a, reminder) + added
  {
    forall k ensures k in KeysFor(b, reminder) <==> k in KeysFor(a, reminder) + added {
      assert k in b.occurrences <==> k in b.occurrences.Keys;
      assert k in a.occurrences <==> k in a.occurrences.Keys;
    }
  }

  /** New rows are rows of this reminder. */
  lemma RowsGrow(a: Tables, b: Tables, reminder: int, moments: seq<int>, quiet: Quiet, ttl: nat)
    requires b.occurrences == InsertOccurrences(a.occurrences, reminder, moments, quiet, ttl)
    ensures |a.occurrences| <= |b.occurrences|
    ensures |Scheduled(b, reminder)| == |Scheduled(a, reminder)| + |b.occurrences| - |a.occurrences|
  {
    hide *;
    InsertedKeys(a.occurrences, reminder, moments, quiet, ttl);
    ScheduledSize(a, reminder);
    ScheduledSize(b, reminder);
    KeysSize(a.occurrences);
    KeysSize(b.occurrences);
    var added := KeysOf(reminder, moments) - a.occurrences.Keys;
    KeysOfReminder(reminder, moments);
    assert b.occurrences.Keys == a.occurrences.Keys + added;
    KeysForReminder(a, b, reminder, added);
    NotYetThere(a, reminder, added);
    DisjointSize(a.occurrences.Keys, added);
    DisjointSize(KeysFor(a, reminder), added);
  }

  lemma KeysOfReminder(reminder: int, moments: seq<int>)
    ensures forall k :: k in KeysOf(reminder, moments) ==> k.reminder == reminder
  {
  }

  lemma DisjointSize<K>(a: set<K>, b: set<K>)
    requires a !! b
    ensures |a + b| == |a| + |b|
  {
  }

  lemma NotYetThere(a: Tables, reminder: int, added: set<OccurrenceKey>)
    requires a.occurrences.Keys !! added
    ensures KeysFor(a, reminder) !! added
  {
  }

  class PlanningService {
    const db: Database
    const horizon: int
    const ttl: nat

    constructor (db: Database, horizon: int, ttl: nat)
      ensures this.db == db && this.horizon == horizon && this.ttl == ttl
    {
      this.db, this.horizon, this.ttl := db, horizon, ttl;
    }

    /** `_occurrence_rows`: quiet hours belong to the owner, one occurrence has one `fire_at`. */
    method OccurrenceRows(reminder: int, quiet: Quiet, moments: seq<int>) returns (rows: map<OccurrenceKey, Occurrence>)
      ensures rows.Keys == KeysOf(reminder, moments)
      ensures forall k :: k in rows ==> rows[k] == FreshOccurrence(quiet, k.scheduledFor, ttl)
    {
      rows := map[];
      for i := 0 to |moments|
        invariant rows.Keys == KeysOf(reminder, moments[..i])
        invariant forall k :: k in rows ==> rows[k] == FreshOccurrence(quiet, k.scheduledFor, ttl)
      {
        hide Shift;
        var fireAt := Shift(quiet, moments[i]);
        rows := rows[OccurrenceKey(reminder, moments[i]) := Occurrence(fireAt, OccPending, 0, fireAt + ttl)];
        assert moments[..i + 1] == moments[..i] + [moments[i]];
      }
      assert moments[..|moments|] == moments;
    }

    /** Rows that are there already win over the ones offered. */
    method InsertMissing(reminder: int, quiet: Quiet, moments: seq<int>) returns (created: nat)
      modifies db`occurrences
      ensures db.occurrences == InsertOccurrences(old(db.occurrences), reminder, moments, quiet, ttl)
      ensures |db.occurrences| == |old(db.occurrences)| + created
    {
      hide *;
      var rows := OccurrenceRows(reminder, quiet, moments);
      var all := rows + db.occurrences;
      MergedRows(rows, db.occurrences, reminder, moments, quiet, ttl);
      PartsOf(db);
      RowsGrow(db.Rows(), db.Rows().(occurrences := all), reminder, moments, quiet, ttl);
      created := |all| - |db.occurrences|;
      db.occurrences := all;
    }

    /** `_create_deliveries`: everybody who accepted, for every instant just materialised. */
    method CreateDeliveries(reminder: int, moments: seq<int>) returns (created: nat)
      requires KeysOf(reminder, moments) <= db.occurrences.Keys
      modifies db`deliveries
      ensures db.deliveries
              == InsertDeliveries(old(db.deliveries), db.occurrences, KeysOf(reminder, moments),
                                  AcceptedUsers(old(db.Rows()), reminder))
      ensures |db.deliveries| == |old(db.deliveries)| + created
    {
      var users := AcceptedUsers(db.Rows(), reminder);
      hide InsertDeliveries, AcceptedUsers;
      var rows := InsertDeliveries(db.deliveries, db.occurrences, KeysOf(reminder, moments), users);
      DeliveriesGrow(db.deliveries, db.occurrences, KeysOf(reminder, moments), users);
      created := |rows| - |db.deliveries|;
      db.deliveries := rows;
    }

    /** The rows of both tables. */
    method Queue(reminder: int, quiet: Quiet, moments: seq<int>) returns (occurrences: nat, deliveries: nat)
      modifies db`occurrences, db`deliveries
      ensures db.occurrences == InsertOccurrences(old(db.occurrences), reminder, moments, quiet, ttl)
      ensures KeysOf(reminder, moments) <= db.occurrences.Keys
      ensures db.deliveries
              == InsertDeliveries(old(db.deliveries), db.occurrences, KeysOf(reminder, moments),
                                  AcceptedUsers(old(db.Rows()), reminder))
      ensures |db.occurrences| == |old(db.occurrences)| + occurrences
      ensures |db.deliveries| == |old(db.deliveries)| + deliveries
    {
      hide *;
      ghost var before := db.Rows();
      PartsOf(db);
      occurrences := InsertMissing(reminder, quiet, moments);
      InsertedKeys(before.occurrences, reminder, moments, quiet, ttl);
      PartsOf(db);
      SameAccepted(before, db.Rows(), reminder);
      deliveries := CreateDeliveries(reminder, moments);
    }

    /** `_expand`. */
    method Expand(p: Plan, horizonEnd: int) returns (moments: seq<int>)
      ensures moments == p.Moments(horizonEnd)
    {
      hide WindowOf;
      var w := p.Window(horizonEnd);
      if w.limit <= 0 || w.until <= w.after {
        return [];
      }
      moments := NextOccurrences(p.schedule, p.zone, w.after, w.until, w.limit);
    }

    /** `set_planning_state`, and `set_status` once nothing is left. */
    method SettleReminder(reminder: int, outcome: PlanOutcome, fired: nat)
      requires reminder in db.reminders
      modifies db`reminders
      ensures db.reminders == old(db.reminders)[reminder := PlannedRow(old(db.reminders)[reminder], outcome, fired)]
    {
      var r := db.reminders[reminder];
      db.reminders := db.reminders[reminder := r.(plannedUntil := Some(outcome.plannedUntil), firedCount := fired)];
      if outcome.exhausted {
        db.reminders := db.reminders[reminder := db.reminders[reminder].(status := Archived)];
      }
    }

    /** `_materialize_one`. */
    method MaterializeReminder(reminder: int, horizonEnd: int)
      returns (occurrences: nat, deliveries: nat, archived: bool)
      requires reminder in db.reminders && db.reminders[reminder].owner in db.users
      modifies db`occurrences, db`deliveries, db`reminders
      ensures db.Rows() == MaterializeOne(old(db.Rows()), reminder, horizonEnd, ttl)
      ensures |db.occurrences| == |old(db.occurrences)| + occurrences
      ensures |db.deliveries| == |old(db.deliveries)| + deliveries
      ensures archived <==> !PlanOf(old(db.Rows()), reminder).Cycle(horizonEnd).active
    {
      hide *;
      ghost var before := db.Rows();
      PartsOf(db);
      var quiet := db.users[db.reminders[reminder].owner].quiet;
      var plan := PlanOf(db.Rows(), reminder);
      var fired := |plan.done|;
      var moments := Expand(plan, horizonEnd);
      occurrences, deliveries := Queue(reminder, quiet, moments);
      PartsOf(db);
      var outcome := Settle(plan.Bounds(), plan.Window(horizonEnd), moments, fired + occurrences);
      SettleReminder(reminder, outcome, fired + occurrences);
      archived := outcome.exhausted;
      PartsOf(db);
      MaterializedParts(before, db.Rows(), reminder, horizonEnd, quiet, ttl, moments, fired + occurrences);
    }

    /** One planner cycle over the reminders the query picked. */
    method Materialize(due: seq<int>, now: int) returns (result: PlanningResult)
      requires forall i :: 0 <= i < |due| ==> due[i] in db.reminders
      modifies db`occurrences, db`deliveries, db`reminders
      ensures db.Rows() == MaterializeAll(old(db.Rows()), due, now + horizon, ttl)
      ensures result.processed == |due| && result.archived == ArchivedIn(old(db.Rows()), due, now + horizon, ttl)
      ensures |db.occurrences| == |old(db.occurrences)| + result.occurrencesCreated
      ensures |db.deliveries| == |old(db.deliveries)| + result.deliveriesCreated
    {
      hide *;
      ghost var before := db.Rows();
      PartsOf(db);
      result := PlanningResult(|due|, 0, 0, 0);
      MaterializeNone(before, now + horizon, ttl);
      for i := 0 to |due|
        invariant db.Rows() == MaterializeAll(before, due[..i], now + horizon, ttl)
        invariant db.reminders.Keys == old(db.reminders).Keys
        invariant result.processed == |due| && result.archived == ArchivedIn(before, due[..i], now + horizon, ttl)
        invariant |db.occurrences| == |old(db.occurrences)| + result.occurrencesCreated
        invariant |db.deliveries| == |old(db.deliveries)| + result.deliveriesCreated
      {
        PartsOf(db);
        assert due[i] in db.reminders.Keys;
        MaterializeNext(before, due, i, now + horizon, ttl);
        ArchivedNext(before, due, i, now + horizon, ttl);
        LastCycleIs(db.Rows(), due[i], now + horizon);
        MaterializeKeepsReminders(db.Rows(), due[i], now + horizon, ttl);
        if db.reminders[due[i]].owner in db.users {
          var occurrences, deliveries, archived := MaterializeReminder(due[i], now + horizon);
          result := PlanningResult(|due|, result.occurrencesCreated + occurrences,
                                   result.deliveriesCreated + deliveries,
                                   result.archived + if archived then 1 else 0);
          PartsOf(db);
        }
      }
      assert due[..|due|] == due;
    }
  }

  function PlannedRow(r: Reminder, outcome: PlanOutcome, fired: nat): Reminder {
    r.(plannedUntil := Some(outcome.plannedUntil), firedCount := fired, status := if outcome.exhausted then Archived
       else r.status)
  }

  lemma PartsOf(db: Database)
    ensures db.Rows() == Tables(db.users, db.reminders, db.recipients, db.occurrences, db.deliveries)
  {
  }

  /** The writes of one reminder, put together. */
  lemma MaterializedParts(a: Tables, b: Tables, reminder: int, horizonEnd: int, quiet: Quiet, ttl: nat,
                          moments: seq<int>, count: nat)
    requires reminder in a.reminders && a.reminders[reminder].owner in a.users
    requires quiet == a.users[a.reminders[reminder].owner].quiet
    requires moments == PlanOf(a, reminder).Moments(horizonEnd)
    requires b.users == a.users && b.recipients == a.recipients
    requires b.occurrences == InsertOccurrences(a.occurrences, reminder, moments, quiet, ttl)
    requires KeysOf(reminder, moments) <= b.occurrences.Keys
    requires b.deliveries
             == InsertDeliveries(a.deliveries, b.occurrences, KeysOf(reminder, moments), AcceptedUsers(a, reminder))
    requires count == |PlanOf(a, reminder).done| + |b.occurrences| - |a.occurrences|
    requires var p := PlanOf(a, reminder);
      b.reminders == a.reminders[reminder := PlannedRow(a.reminders[reminder],
                                                        Settle(p.Bounds(), p.Window(horizonEnd), moments, count),
                                                          count)]
    ensures b == MaterializeOne(a, reminder, horizonEnd, ttl)
    ensures var p := PlanOf(a, reminder);
      p.Cycle(horizonEnd).active == !Settle(p.Bounds(), p.Window(horizonEnd), moments, count).exhausted
  {
    var p := PlanOf(a, reminder);
    hide InsertDeliveries, InsertOccurrences, AcceptedUsers, Scheduled, Plan.Cycle, Plan.Moments, Settle, WindowOf,
         KeysOf;
    RowsGrow(a, b, reminder, moments, quiet, ttl);
    InsertedScheduled(a, b, reminder, moments, quiet, ttl);
    CycleEnds(p, horizonEnd, moments, count);
  }

  lemma LastCycleIs(db: Tables, reminder: int, horizonEnd: int)
    requires reminder in db.reminders
    ensures IsLastCycle(db, reminder, horizonEnd)
            <==> db.reminders[reminder].owner in db.users && !PlanOf(db, reminder).Cycle(horizonEnd).active
  {
  }

  lemma MaterializeNone(db: Tables, horizonEnd: int, ttl: nat)
    ensures MaterializeAll(db, [], horizonEnd, ttl) == db && ArchivedIn(db, [], horizonEnd, ttl) == 0
  {
  }

  lemma SameAccepted(a: Tables, b: Tables, reminder: int)
    requires a.recipients == b.recipients
    ensures AcceptedUsers(a, reminder) == AcceptedUsers(b, reminder)
  {
  }

  /** Counting the rows that were there and the ones inserted counts the whole plan. */
  lemma CycleEnds(p: Plan, horizonEnd: int, moments: seq<int>, count: nat)
    requires moments == p.Moments(horizonEnd)
    requires count == |p.done + set t | t in moments|
    ensures var outcome := Settle(p.Bounds(), p.Window(horizonEnd), moments, count);
      && p.Cycle(horizonEnd).plannedUntil == Some(outcome.plannedUntil)
      && p.Cycle(horizonEnd).active == !outcome.exhausted
      && |p.Cycle(horizonEnd).done| == count
  {
    hide Settle, WindowOf, Expansion;
  }
}
