/** One step of the program, seen from one row. */
module Steps {
  import opened Schedules
  import opened Planning
  import opened QuietHours
  import opened Contracts
  import opened Reactions
  import opened Sweeping
  import opened Store
  import opened Runs

  // ---------------------------------------------------------------------------------------------
  // Deliveries
  // ---------------------------------------------------------------------------------------------

  /** What a sweep may do to one delivery: record silence, requeue it, free its lock. */
  ghost predicate Reaped(d: Delivery, e: Delivery, expired: bool, expiresAt: int, now: int) {
    exists mid: Delivery ::
      && (mid == (if expired then ExpireRow(d, now) else d)
          || (!expired && d.status == Sent && exists moment :: now <= moment < expiresAt
                                                 && mid == RepeatRow(d, moment)))
      && e == ReleaseRow(mid, now)
  }

  /** The lifetime of a delivery's occurrence; nothing is requeued without one. */
  function ExpiresAt(db: Tables, k: DeliveryKey, now: int): int {
    if k.occurrence in db.occurrences then db.occurrences[k.occurrence].expiresAt else now
  }

  /** The new row of a delivery that a step leaves in place. */
  ghost predicate RowChange(w: World, s: Step, k: DeliveryKey, d: Delivery, e: Delivery) {
    match s.event
    case ClaimBatch(_, batch, lockFor) => e == if k in batch then ClaimRow(d, s.now + lockFor) else d
    case Attempt(session, key, result) =>
      var own := FlightKey(session, key);
      e == if k == key && own in w.inFlight && w.inFlight[own].row then SettledRow(d, w.inFlight[own], s.now, result)
        else d
    case Tap(key, user, kind) =>
      if k == key && React(w.db, key, user, kind, s.now).1 == Applied
      then exists r :: Writes(kind, r, s.now) && e == ReactRow(d, kind, r, s.now)
      else e == d
    case Reap(overdue, _) => Reaped(d, e, k.occurrence in overdue, ExpiresAt(w.db, k, s.now), s.now)
    case _ => e == d
  }

  predicate Removes(e: Event) {
    e.ChangeStatus? || e.Reschedule? || e.LeaveReminder?
  }

  /** A step rewrites a row, removes it while it is still pending, or adds it fresh. */
  ghost predicate RowSteps(w: World, s: Step, k: DeliveryKey)
  {
    var v := Next(w, s);
    && (k in w.db.deliveries && k in v.db.deliveries ==> RowChange(w, s, k, w.db.deliveries[k], v.db.deliveries[k]))
    && (k in w.db.deliveries && k !in v.db.deliveries ==> Removes(s.event) && w.db.deliveries[k].status == Pending)
    && (k !in w.db.deliveries && k in v.db.deliveries ==>
          k.occurrence in v.db.occurrences
            && v.db.deliveries[k] == FreshDelivery(v.db.occurrences[k.occurrence].fireAt))
  }

  lemma DropRows(db: Tables, reminder: int, k: DeliveryKey)
    requires reminder in db.reminders
    ensures k in DropQueued(db, reminder).deliveries
            ==> k in db.deliveries && DropQueued(db, reminder).deliveries[k] == db.deliveries[k]
    ensures k in db.deliveries && k !in DropQueued(db, reminder).deliveries ==> db.deliveries[k].status == Pending
  {
  }

  lemma ReapRow(db: Tables, overdue: set<OccurrenceKey>, candidates: set<DeliveryKey>, now: int, k: DeliveryKey)
    requires k in db.deliveries
    requires forall o :: o in overdue
                ==> o in db.occurrences && IsOverdue(db.occurrences[o].status, db.occurrences[o].expiresAt, now)
    ensures k in Sweep(db, overdue, candidates, now).deliveries
    ensures Reaped(db.deliveries[k], Sweep(db, overdue, candidates, now).deliveries[k], k.occurrence in overdue,
                   ExpiresAt(db, k, now), now)
  {
    hide ReleaseRow, RepeatMoment;
    var expired := Expire(db, overdue, now);
    var repeated := Repeat(expired, candidates, now);
    assert k in expired.deliveries && k in repeated.deliveries;
    var mid := repeated.deliveries[k];
    if IsRepeated(expired, candidates, k, now) {
      RepeatedMoment(expired, candidates, k, now);
    }
    assert ReleaseStaleLocks(repeated, now).deliveries[k] == ReleaseRow(mid, now);
  }

  lemma RepeatedMoment(db: Tables, candidates: set<DeliveryKey>, k: DeliveryKey, now: int)
    requires IsRepeated(db, candidates, k, now)
    ensures k in db.deliveries && HasContext(db, k) && RepeatMoment(db, k, now).Some?
    ensures now <= RepeatMoment(db, k, now).value < db.occurrences[k.occurrence].expiresAt
    ensures db.deliveries[k].status == Sent && now < db.occurrences[k.occurrence].expiresAt
  {
    hide DecideRepeat;
    var d, o, r := db.deliveries[k], db.occurrences[k.occurrence], db.reminders[k.occurrence.reminder];
    RepeatContract(d.sentAt, r.repeatAfterMinutes, o.repeatsSent, r.maxRepeats, o.expiresAt, db.users[k.user].quiet,
                   now);
  }

  lemma InsertRows(rows: map<DeliveryKey, Delivery>, occurrences: map<OccurrenceKey, Occurrence>,
                   keys: set<OccurrenceKey>,
                   users: set<int>, k: DeliveryKey)
    requires keys <= occurrences.Keys
    ensures var after := InsertDeliveries(rows, occurrences, keys, users);
      && (k in rows ==> k in after && after[k] == rows[k])
      && (k !in rows && k in after
          ==> k.occurrence in occurrences && after[k] == FreshDelivery(occurrences[k.occurrence].fireAt))
  {
  }

  lemma QuietRowSteps(w: World, s: Step, k: DeliveryKey)
    requires Legal(w, s)
    requires s.event.AddUser? || s.event.ChangeUser? || s.event.Unblock? || s.event.Create? || s.event.EditRepeat?
          || s.event.Invite? || s.event.Decline? || s.event.Crash? || s.event.Load?
    ensures RowSteps(w, s, k)
  {
    hide Watchers;
    assert Next(w, s).db.deliveries == w.db.deliveries;
  }

  lemma ClaimRowSteps(w: World, s: Step, k: DeliveryKey)
    requires Legal(w, s) && s.event.ClaimBatch?
    ensures RowSteps(w, s, k)
  {
    hide ClaimRow, Claimable, Flights;
  }

  lemma AttemptRowSteps(w: World, s: Step, k: DeliveryKey)
    requires Legal(w, s) && s.event.Attempt?
    ensures RowSteps(w, s, k)
  {
    hide SettledRow, VerdictFor, MovesOn, Flights;
  }

  lemma TapRowSteps(w: World, s: Step, k: DeliveryKey)
    requires Legal(w, s) && s.event.Tap?
    ensures RowSteps(w, s, k)
  {
    if React(w.db, s.event.key, s.event.user, s.event.kind, s.now).1 == Applied {
      var r := TapShape(w.db, s.event.key, s.event.user, s.event.kind, s.now);
      hide React, ReactRow, AllTerminal;
      assert Next(w, s).db == Answered(w.db, s.event.key, s.event.kind, r, s.now);
    } else {
      assert Next(w, s).db == w.db;
    }
  }

  lemma RemovingRowSteps(w: World, s: Step, k: DeliveryKey)
    requires Legal(w, s) && Removes(s.event)
    ensures RowSteps(w, s, k)
  {
    hide DropQueued, FirstFireAt;
    var r := s.event.reminder;
    if !s.event.LeaveReminder? && EditableBy(w.db, s.event.owner, r) == Edited {
      var row := if s.event.ChangeStatus? then w.db.reminders[r].(status := s.event.status)
                 else w.db.reminders[r].(schedule := s.event.schedule);
      DropRows(w.db.(reminders := w.db.reminders[r := row]), r, k);
    }
  }

  lemma AddingRowSteps(w: World, s: Step, k: DeliveryKey)
    requires Legal(w, s) && (s.event.AcceptInvitation? || s.event.Materialize?)
    ensures RowSteps(w, s, k)
  {
    hide InsertDeliveries, Plan.Moments, Plan.Cycle, AcceptedUsers, FreshOccurrence, Upcoming;
    if s.event.AcceptInvitation? {
      UpcomingExist(w.db, s.event.reminder, s.now);
      InsertRows(w.db.deliveries, w.db.occurrences, Upcoming(w.db, s.event.reminder, s.now), {s.event.user}, k);
    } else {
      MaterializeRows(w.db, s.event.reminder, s.event.horizonEnd, s.event.ttl, k);
    }
  }

  lemma MaterializeRows(db: Tables, reminder: int, horizonEnd: int, ttl: nat, k: DeliveryKey)
    requires reminder in db.reminders
    ensures var after := MaterializeOne(db, reminder, horizonEnd, ttl);
      && (k in db.deliveries ==> k in after.deliveries && after.deliveries[k] == db.deliveries[k])
      && (k !in db.deliveries && k in after.deliveries ==>
            k.occurrence in after.occurrences
              && after.deliveries[k] == FreshDelivery(after.occurrences[k.occurrence].fireAt))
  {
    hide InsertDeliveries, Plan.Moments, Plan.Cycle, AcceptedUsers, InsertOccurrences;
    if db.reminders[reminder].owner in db.users {
      MaterializeShape(db, reminder, horizonEnd, ttl);
      var after := MaterializeOne(db, reminder, horizonEnd, ttl);
      var keys := KeysOf(reminder, PlanOf(db, reminder).Moments(horizonEnd));
      InsertRows(db.deliveries, after.occurrences, keys, AcceptedUsers(db, reminder), k);
    }
  }

  lemma EveryRowSteps(w: World, s: Step, k: DeliveryKey)
    requires Legal(w, s)
    ensures RowSteps(w, s, k)
  {
    match s.event
    case ClaimBatch(_, _, _) => ClaimRowSteps(w, s, k);
    case Attempt(_, _, _) => AttemptRowSteps(w, s, k);
    case Tap(_, _, _) => TapRowSteps(w, s, k);
    case ChangeStatus(_, _, _) => RemovingRowSteps(w, s, k);
    case Reschedule(_, _, _) => RemovingRowSteps(w, s, k);
    case LeaveReminder(_, _) => RemovingRowSteps(w, s, k);
    case AcceptInvitation(_, _) => AddingRowSteps(w, s, k);
    case Materialize(_, _, _) => AddingRowSteps(w, s, k);
    case Reap(overdue, candidates) =>
      hide Reaped, Expire, Repeat, ReleaseStaleLocks;
      if k in w.db.deliveries { ReapRow(w.db, overdue, candidates, s.now, k); }
      SweepKeys(w.db, overdue, candidates, s.now);
    case _ => QuietRowSteps(w, s, k);
  }

  lemma SweepKeys(db: Tables, overdue: set<OccurrenceKey>, candidates: set<DeliveryKey>, now: int)
    ensures Sweep(db, overdue, candidates, now).deliveries.Keys == db.deliveries.Keys
    ensures Sweep(db, overdue, candidates, now).occurrences.Keys == db.occurrences.Keys
  {
    hide ReleaseRow, RepeatRow, IsRepeated, RepeatMoment, ExpireRow;
  }

  // ---------------------------------------------------------------------------------------------
  // Occurrences
  // ---------------------------------------------------------------------------------------------

  /** The tap was the last answer an occurrence was waiting for. */
  ghost predicate ClosedByTap(w: World, s: Step, o: OccurrenceKey, before: OccurrenceStatus, after: OccurrenceStatus) {
    && s.event.Tap? && s.event.key.occurrence == o && !IsClosed(before) && after in {OccDone, OccSkipped}
    && React(w.db, s.event.key, s.event.user, s.event.kind, s.now).1 == Applied
    && AllTerminal(Next(w, s).db.deliveries, o)
  }

  /** The new row of an occurrence that a step leaves in place. */
  ghost predicate OccurrenceChange(w: World, s: Step, o: OccurrenceKey, a: Occurrence, b: Occurrence) {
    match s.event
    case Attempt(session, key, result) =>
      var own := FlightKey(session, key);
      b == if o == key.occurrence && own in w.inFlight && MovesOn(w.inFlight[own], result)
           then a.(status := OccSent) else a
    case Tap(_, _, _) => b == a || (b == a.(status := b.status) && ClosedByTap(w, s, o, a.status, b.status))
    case Reap(overdue, _) =>
      b == a.(status := if o in overdue then OccExpired else a.status, repeatsSent := b.repeatsSent)
      && (b.repeatsSent == a.repeatsSent || (b.repeatsSent == a.repeatsSent + 1 && HasRepeatLeft(w.db, o)))
    case _ => b == a
  }

  predicate HasRepeatLeft(db: Tables, o: OccurrenceKey) {
    && o in db.occurrences && o.reminder in db.reminders
    && db.occurrences[o].repeatsSent < db.reminders[o.reminder].maxRepeats
  }

  predicate IsPlanned(o: Occurrence) {
    o.status == OccPending && o.repeatsSent == 0 && o.fireAt <= o.expiresAt
  }

  /** Only pending occurrences are ever taken back, and new ones are pending. */
  ghost predicate OccurrenceSteps(w: World, s: Step, o: OccurrenceKey) {
    var v := Next(w, s);
    && (o in w.db.occurrences && o in v.db.occurrences
        ==> OccurrenceChange(w, s, o, w.db.occurrences[o], v.db.occurrences[o]))
    && (o in w.db.occurrences && o !in v.db.occurrences ==>
          (s.event.ChangeStatus? || s.event.Reschedule?) && w.db.occurrences[o].status == OccPending)
    && (o !in w.db.occurrences && o in v.db.occurrences ==>
          s.event.Materialize? && IsPlanned(v.db.occurrences[o]))
  }

  lemma ReapOccurrence(db: Tables, overdue: set<OccurrenceKey>, candidates: set<DeliveryKey>, now: int,
                       o: OccurrenceKey)
    requires o in db.occurrences
    ensures var after := Sweep(db, overdue, candidates, now);
      && o in after.occurrences
      && var a, b := db.occurrences[o], after.occurrences[o];
         b == a.(status := if o in overdue then OccExpired else a.status, repeatsSent := b.repeatsSent)
         && (b.repeatsSent == a.repeatsSent || (b.repeatsSent == a.repeatsSent + 1 && HasRepeatLeft(db, o)))
  {
    hide ReleaseRow, RepeatRow, RepeatMoment, ExpireRow;
    var expired := Expire(db, overdue, now);
    if k :| k in candidates && k.occurrence == o && IsRepeated(expired, candidates, k, now) {
      assert expired.occurrences[o].repeatsSent == db.occurrences[o].repeatsSent;
    }
    hide IsRepeated;
  }

  lemma PlannedOccurrence(db: Tables, reminder: int, horizonEnd: int, ttl: nat, o: OccurrenceKey)
    requires reminder in db.reminders
    ensures var after := MaterializeOne(db, reminder, horizonEnd, ttl);
      && (o in db.occurrences ==> o in after.occurrences && after.occurrences[o] == db.occurrences[o])
      && (o in after.occurrences && o !in db.occurrences ==> IsPlanned(after.occurrences[o]))
  {
    hide Plan.Moments, Plan.Cycle, AcceptedUsers, InsertDeliveries, KeysOf, Shift;
  }

  lemma SendingOccurrence(w: World, s: Step, o: OccurrenceKey)
    requires Legal(w, s) && s.event.Attempt?
    ensures OccurrenceSteps(w, s, o)
  {
    hide SettledRow, VerdictFor, MovesOn, Flights;
  }

  lemma TappedOccurrence(w: World, s: Step, o: OccurrenceKey)
    requires Legal(w, s) && s.event.Tap?
    ensures OccurrenceSteps(w, s, o)
  {
    hide ReactRow, AllTerminal, Flights;
    if React(w.db, s.event.key, s.event.user, s.event.kind, s.now).1 == Applied {
      var r := TapShape(w.db, s.event.key, s.event.user, s.event.kind, s.now);
      hide React;
      assert Next(w, s).db == Answered(w.db, s.event.key, s.event.kind, r, s.now);
    } else {
      assert Next(w, s).db == w.db;
    }
  }

  lemma RemovingOccurrence(w: World, s: Step, o: OccurrenceKey)
    requires Legal(w, s) && Removes(s.event)
    ensures OccurrenceSteps(w, s, o)
  {
    hide FirstFireAt, Flights;
  }

  lemma QuietOccurrence(w: World, s: Step, o: OccurrenceKey)
    requires Legal(w, s) && !Removes(s.event) && !s.event.Attempt? && !s.event.Tap? && !s.event.Reap?
    requires !s.event.Materialize?
    ensures OccurrenceSteps(w, s, o)
  {
    hide InsertDeliveries, Watchers, Upcoming, ClaimRow, Flights;
    assert Next(w, s).db.occurrences == w.db.occurrences;
  }

  lemma EveryOccurrenceSteps(w: World, s: Step, o: OccurrenceKey)
    requires Legal(w, s)
    ensures OccurrenceSteps(w, s, o)
  {
    hide Flights;
    match s.event
    case Attempt(_, _, _) => SendingOccurrence(w, s, o);
    case Tap(_, _, _) => TappedOccurrence(w, s, o);
    case ChangeStatus(_, _, _) => RemovingOccurrence(w, s, o);
    case Reschedule(_, _, _) => RemovingOccurrence(w, s, o);
    case LeaveReminder(_, _) => RemovingOccurrence(w, s, o);
    case Materialize(r, horizonEnd, ttl) =>
      hide MaterializeOne;
      PlannedOccurrence(w.db, r, horizonEnd, ttl, o);
    case Reap(overdue, candidates) =>
      hide Sweep;
      if o in w.db.occurrences { ReapOccurrence(w.db, overdue, candidates, s.now, o); }
      SweepKeys(w.db, overdue, candidates, s.now);
    case _ => QuietOccurrence(w, s, o);
  }

  /** A step neither moves an occurrence's moment and lifetime nor makes it wait again. */
  lemma OccurrenceKeeps(w: World, s: Step, o: OccurrenceKey)
    requires Legal(w, s) && o in w.db.occurrences && o in Next(w, s).db.occurrences
    ensures var a, b := w.db.occurrences[o], Next(w, s).db.occurrences[o];
      && b.fireAt == a.fireAt && b.expiresAt == a.expiresAt && a.repeatsSent <= b.repeatsSent
      && (!IsSendable(a.status) ==> !IsSendable(b.status))
  {
    hide Next, MovesOn;
    EveryOccurrenceSteps(w, s, o);
  }

  // ---------------------------------------------------------------------------------------------
  // Reminders and users
  // ---------------------------------------------------------------------------------------------

  /** The terms of a reminder that no event changes. */
  predicate SameTerms(a: Reminder, b: Reminder) {
    a.owner == b.owner && a.maxRepeats == b.maxRepeats && a.maxOccurrences == b.maxOccurrences
  }

  ghost predicate TermsKept(a: Tables, b: Tables) {
    && a.users.Keys <= b.users.Keys
    && forall r :: r in a.reminders ==> r in b.reminders && SameTerms(a.reminders[r], b.reminders[r])
  }

  lemma SweepTerms(db: Tables, overdue: set<OccurrenceKey>, candidates: set<DeliveryKey>, now: int)
    ensures Sweep(db, overdue, candidates, now).reminders == db.reminders
    ensures Sweep(db, overdue, candidates, now).users == db.users
    ensures Sweep(db, overdue, candidates, now).recipients == db.recipients
  {
    hide IsRepeated, ReleaseRow, RepeatRow, RepeatMoment, ExpireRow;
  }

  lemma TapTerms(db: Tables, key: DeliveryKey, user: int, kind: ActionKind, now: int)
    ensures var after := React(db, key, user, kind, now).0;
      && after.reminders == db.reminders && after.users == db.users && after.recipients == db.recipients
      && after.deliveries.Keys == db.deliveries.Keys && after.occurrences.Keys == db.occurrences.Keys
  {
    hide CheckReactable, DecideReaction, Answered;
    if React(db, key, user, kind, now).1 == Applied {
      var r := TapShape(db, key, user, kind, now);
      hide React;
      AnsweredTerms(db, key, kind, r, now);
    }
  }

  lemma AnsweredTerms(db: Tables, key: DeliveryKey, kind: ActionKind, r: Reaction, now: int)
    requires key in db.deliveries && key.occurrence in db.occurrences
    ensures var after := Answered(db, key, kind, r, now);
      && after.reminders == db.reminders && after.users == db.users && after.recipients == db.recipients
      && after.deliveries.Keys == db.deliveries.Keys && after.occurrences.Keys == db.occurrences.Keys
  {
    hide RollUp, AllTerminal, ReactRow;
  }

  lemma EveryTermsKept(w: World, s: Step)
    requires Legal(w, s)
    ensures TermsKept(w.db, Next(w, s).db)
  {
    hide Flights, Sweep, React, MaterializeOne, SetStatus, ReplaceSchedule, InsertDeliveries, Upcoming, Watchers, Claim,
         VerdictFor,
         SettledRow, MovesOn;
    match s.event
    case Reap(overdue, candidates) => SweepTerms(w.db, overdue, candidates, s.now);
    case Tap(key, user, kind) => TapTerms(w.db, key, user, kind, s.now);
    case Materialize(r, horizonEnd, ttl) => PlanTerms(w.db, r, horizonEnd, ttl);
    case ChangeStatus(owner, r, status) => EditTerms(w.db, owner, r, status, Once(0), s.now);
    case Reschedule(owner, r, schedule) => EditTerms(w.db, owner, r, Active, schedule, s.now);
    case ClaimBatch(_, batch, lockFor) => ClaimTerms(w.db, batch, s.now, lockFor);
    case _ =>
  }

  lemma ClaimTerms(db: Tables, batch: set<DeliveryKey>, now: int, lockFor: int)
    ensures TermsKept(db, Claim(db, batch, now, lockFor))
  {
  }

  lemma PlanTerms(db: Tables, reminder: int, horizonEnd: int, ttl: nat)
    requires reminder in db.reminders
    ensures TermsKept(db, MaterializeOne(db, reminder, horizonEnd, ttl))
  {
    hide InsertDeliveries, InsertOccurrences, Plan.Moments, Plan.Cycle, AcceptedUsers;
  }

  lemma EditTerms(db: Tables, owner: int, reminder: int, status: ReminderStatus, schedule: Schedule, now: int)
    ensures TermsKept(db, SetStatus(db, owner, reminder, status).0)
    ensures TermsKept(db, ReplaceSchedule(db, owner, reminder, schedule, now).0)
  {
    hide Unsent, FirstFireAt;
  }
}
