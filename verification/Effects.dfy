/** What a caller gets from the transactions: what they undo, what they leave alone, and what a second
    call adds to the first. */
module Effects {
  import opened Ordering
  import opened Zones
  import opened Planning
  import opened Recurrence
  import opened Agenda
  import opened QuietHours
  import opened Schedules
  import opened Contracts
  import opened Retry
  import opened Dispatching
  import opened Sweeping
  import opened Reactions
  import opened Store
  import opened Runs
  import opened Steps
  import opened Invariants
  import opened Services

  // ---------------------------------------------------------------------------------------------
  // An attempt
  // ---------------------------------------------------------------------------------------------

  predicate IsRefusal(f: Flight, result: SendResult) {
    AbortFor(f.view).None? && result.Refused? && result.error == Forbidden
  }

  /** A verdict frees the row and keeps what its recipient has answered; it counts as sent exactly when
      the message went out; anything given another try is given one later. */
  lemma VerdictOnRow(d: Delivery, f: Flight, now: int, result: SendResult)
    requires f.attempts > 0
    ensures var e := SettledRow(d, f, now, result);
      && e.lockedUntil.None? && e.actions == d.actions && e.reactedAt == d.reactedAt && e.snoozedUntil == d.snoozedUntil
      && e.status in {Sent, Pending, Failed, Blocked}
      && (e.status == Sent <==> GoesOut(f, result)) && e.sentAt == (if e.status == Sent then Some(now) else d.sentAt)
      && (e.status == Pending ==> now < e.nextAttemptAt && e.attempts < f.attempts + 1)
      && (e.status != Pending ==> e.nextAttemptAt == d.nextAttemptAt)
      && (IsRefusal(f, result) ==> e.status == Blocked)
  {
    hide Backoff;
    if result.Refused? {
      ErrorTable(f.attempts - 1, result.error, now, result.retryAfter, OccurrenceClosed);
    }
  }

  lemma BlocksOnRefusal(f: Flight, now: int, result: SendResult)
    ensures VerdictFor(f, now, result).blocksUser <==> IsRefusal(f, result)
  {
    hide NextAttempt;
  }

  /** Of everything else an attempt touches at most two columns: the recipient is blocked exactly when
      they refused, and the occurrence is sent exactly when the message went out under one that was
      read as still to be sent. */
  lemma AttemptTouchesOnly(db: Tables, key: DeliveryKey, f: Flight, now: int, result: SendResult)
    ensures var after := DeliverOne(db, key, f, now, result);
      && after.reminders == db.reminders && after.recipients == db.recipients
      && after.deliveries.Keys == db.deliveries.Keys && after.users.Keys == db.users.Keys
      && after.occurrences.Keys == db.occurrences.Keys
      && (forall k :: k in db.deliveries && (k != key || !f.row) ==> after.deliveries[k] == db.deliveries[k])
      && (forall u :: u in db.users ==>
            after.users[u] == db.users[u].(blocked := db.users[u].blocked || (u == key.user && IsRefusal(f, result))))
      && (forall o :: o in db.occurrences ==>
            after.occurrences[o]
            == if o == key.occurrence && MovesOn(f, result) then db.occurrences[o].(status := OccSent)
               else db.occurrences[o])
  {
    hide SettledRow, MovesOn, VerdictFor, IsRefusal;
    BlocksOnRefusal(f, now, result);
    AttemptedUsers(db, key, f, now, result);
    AttemptedOccurrences(db, key, f, now, result);
  }

  lemma AttemptedUsers(db: Tables, key: DeliveryKey, f: Flight, now: int, result: SendResult)
    ensures var after := DeliverOne(db, key, f, now, result);
      && after.users.Keys == db.users.Keys
      && (forall u :: u in db.users ==>
            after.users[u]
            == db.users[u].(blocked := db.users[u].blocked || (u == key.user && VerdictFor(f, now, result).blocksUser)))
  {
    hide SettledRow, MovesOn, VerdictFor;
    var blocks := VerdictFor(f, now, result).blocksUser;
    assert DeliverOne(db, key, f, now, result).users
           == if blocks && key.user in db.users then db.users[key.user := db.users[key.user].(blocked := true)]
              else db.users;
    hide DeliverOne;
  }

  lemma AttemptedOccurrences(db: Tables, key: DeliveryKey, f: Flight, now: int, result: SendResult)
    ensures var after := DeliverOne(db, key, f, now, result);
      && after.occurrences.Keys == db.occurrences.Keys
      && (forall o :: o in db.occurrences ==>
            after.occurrences[o]
            == if o == key.occurrence && MovesOn(f, result) then db.occurrences[o].(status := OccSent)
               else db.occurrences[o])
  {
    hide SettledRow, MovesOn, VerdictFor;
  }

  /** The message goes out under an occurrence read as pending or dispatching, and still there. */
  lemma MovesOnExactly(f: Flight, result: SendResult)
    ensures MovesOn(f, result)
            <==> f.occurrence && result == Accepted && f.view in {Seen(OccPending, false), Seen(OccDispatching, false)}
  {
  }

  /** What becomes of a row, by what the session has read and what the network said: nothing goes out
      without its context, for a closed occurrence or to somebody who blocked the bot, and none of these
      costs an attempt; everything else follows the error table. */
  lemma AttemptTable(d: Delivery, f: Flight, now: int, result: SendResult)
    requires f.attempts >= 1
    ensures var e := SettledRow(d, f, now, result);
      match f.view
      case Unread => e.status == Failed && e.attempts == f.attempts - 1 && e.sentAt == d.sentAt
      case NoContext => e.status == Failed && e.attempts == f.attempts - 1 && e.sentAt == d.sentAt
      case Seen(status, blocked) =>
        if status in {OccDone, OccSkipped, OccExpired, OccFailed} then
          e.status == Failed && e.attempts == f.attempts - 1 && e.sentAt == d.sentAt
        else if blocked then
          e.status == Blocked && e.attempts == f.attempts - 1 && e.sentAt == d.sentAt
        else
          match result
          case Accepted => e.status == Sent && e.attempts == 0 && e.sentAt == Some(now)
          case Refused(Forbidden, _) => e.status == Blocked && e.sentAt == d.sentAt
          case Refused(BadRequest, _) => e.status == Failed && e.sentAt == d.sentAt
          case Refused(RetryAfter, _) => e.status == Pending && e.attempts == f.attempts - 1 && e.sentAt == d.sentAt
          case Refused(Transient, _) =>
            e.attempts == f.attempts && e.sentAt == d.sentAt && (e.status == if f.attempts < 5 then Pending else Failed)
  {
    hide Backoff;
  }

  /** What a session reads of a row is what the tables say at that moment. */
  lemma ViewIsTables(db: Tables, k: DeliveryKey, status: OccurrenceStatus, blocked: bool)
    ensures ViewOf(db, k) == Seen(status, blocked)
            <==> k.occurrence in db.occurrences && k.occurrence.reminder in db.reminders && k.user in db.users
                 && db.occurrences[k.occurrence].status == status && db.users[k.user].blocked == blocked
    ensures ViewOf(db, k) == NoContext
            <==> !(k.occurrence in db.occurrences && k.occurrence.reminder in db.reminders && k.user in db.users)
  {
  }

  // ---------------------------------------------------------------------------------------------
  // A tap
  // ---------------------------------------------------------------------------------------------

  /** A tap closes the occurrence exactly when nothing of it is left open, with its own kind, and
      rewrites no other row; one that is refused writes nothing. */
  lemma TapClosesExactly(db: Tables, key: DeliveryKey, user: int, kind: ActionKind, now: int)
    ensures var (after, outcome) := React(db, key, user, kind, now);
      if outcome != Applied then after == db
      else
        var o := key.occurrence;
        && key in db.deliveries && o in db.occurrences && !IsClosed(db.occurrences[o].status)
        && key in after.deliveries
           && after == db.(deliveries := db.deliveries[key := after.deliveries[key]], occurrences := after.occurrences)
        && o in after.occurrences
           && after.occurrences == db.occurrences[o := db.occurrences[o].(status := after.occurrences[o].status)]
        && (after.occurrences == db.occurrences
            || after.occurrences[o].status == if kind == DoneAction then OccDone else OccSkipped)
        && (after.occurrences[o].status in {OccDone, OccSkipped, OccExpired, OccFailed}
            <==> forall k :: k in after.deliveries && k.occurrence == o ==> !IsOpen(after.deliveries[k].status))
  {
    var (after, outcome) := React(db, key, user, kind, now);
    if outcome == Applied {
      var r := TapShape(db, key, user, kind, now);
      hide React;
      AnsweredCloses(db, key, kind, r, now);
      OpenOrTerminal(after.deliveries, key.occurrence);
      hide Answered;
    } else {
      hide Answered, DecideReaction, CheckReactable;
    }
  }

  lemma OpenOrTerminal(deliveries: map<DeliveryKey, Delivery>, o: OccurrenceKey)
    ensures AllTerminal(deliveries, o)
            <==> forall k :: k in deliveries && k.occurrence == o ==> !IsOpen(deliveries[k].status)
  {
    forall k | k in deliveries ensures IsOpen(deliveries[k].status) <==> !IsTerminal(deliveries[k].status) {
      OpenExactly(deliveries[k].status);
    }
    hide IsOpen, IsTerminal;
  }

  lemma OpenExactly(s: DeliveryStatus)
    ensures IsOpen(s) <==> !IsTerminal(s)
  {
    assert s.Pending? || s.Sent? || s.Done? || s.Skipped? || s.Snoozed? || s.Failed? || s.Blocked?;
  }

  lemma ClosedStatuses(s: OccurrenceStatus)
    ensures s in {OccPending, OccDispatching, OccSent} <==> !IsClosed(s)
    ensures s in {OccDone, OccSkipped, OccExpired, OccFailed} <==> IsClosed(s)
  {
    assert s.OccPending? || s.OccDispatching? || s.OccSent? || s.OccDone? || s.OccSkipped? || s.OccExpired?
           || s.OccFailed?;
  }

  lemma AnsweredCloses(db: Tables, key: DeliveryKey, kind: ActionKind, r: Reaction, now: int)
    requires key in db.deliveries && key.occurrence in db.occurrences
    requires !IsClosed(db.occurrences[key.occurrence].status)
    requires Writes(kind, r, now)
    ensures var after, o := Answered(db, key, kind, r, now), key.occurrence;
      && key in after.deliveries
         && after == db.(deliveries := db.deliveries[key := after.deliveries[key]], occurrences := after.occurrences)
      && o in after.occurrences
         && after.occurrences == db.occurrences[o := db.occurrences[o].(status := after.occurrences[o].status)]
      && (IsClosed(after.occurrences[o].status) <==> AllTerminal(after.deliveries, o))
      && (!AllTerminal(after.deliveries, o) ==> after.occurrences == db.occurrences)
      && (AllTerminal(after.deliveries, o)
          ==> after.occurrences[o].status == if kind == DoneAction then OccDone else OccSkipped)
  {
    var after := Answered(db, key, kind, r, now);
    assert after.deliveries[key].status == r.status
           && (AllTerminal(after.deliveries, key.occurrence) ==> IsTerminal(r.status));
    assert after.occurrences == db.occurrences[key.occurrence := after.occurrences[key.occurrence]];
    hide AllTerminal, ReactRow;
  }

  predicate IsOpen(s: DeliveryStatus) {
    s in {Pending, Sent, Snoozed}
  }

  /** When a tap counts: it is the recipient's own, on a delivery neither settled nor waiting out a snooze
      of theirs, under an occurrence that is open and alive. */
  lemma TapCountsExactly(db: Tables, key: DeliveryKey, user: int, kind: ActionKind, now: int)
    ensures React(db, key, user, kind, now).1 == Applied <==>
      && key in db.deliveries && key.user == user && user in db.users
      && key.occurrence in db.occurrences && key.occurrence.reminder in db.reminders
      && Counts(kind, db.deliveries[key], db.occurrences[key.occurrence],
                db.reminders[key.occurrence.reminder].snoozeMinutes, now)
    ensures React(db, key, user, kind, now).1 == NotYours <==> key in db.deliveries && key.user != user
    ensures React(db, key, user, kind, now).1 == Rejected(TooLate) ==>
      && key in db.deliveries && key.occurrence in db.occurrences
      && (db.occurrences[key.occurrence].status in {OccDone, OccSkipped, OccExpired, OccFailed}
          || db.occurrences[key.occurrence].expiresAt <= now)
  {
    hide Answered, DecideReaction, CheckReactable, Counts;
    if key in db.deliveries && HasContext(db, key) {
      CountsExactly(kind, db.deliveries[key], db.occurrences[key.occurrence],
                    db.reminders[key.occurrence.reminder].snoozeMinutes, db.users[key.user].quiet, now);
    }
  }

  predicate Counts(kind: ActionKind, d: Delivery, o: Occurrence, snoozeMinutes: int, now: int) {
    && IsOpen(d.status) && o.status in {OccPending, OccDispatching, OccSent} && now < o.expiresAt
    && kind != AutoExpireAction
    && (kind == SnoozeAction ==>
          snoozeMinutes >= 1 && !(d.status == Snoozed && d.snoozedUntil.Some? && now < d.snoozedUntil.value))
  }

  lemma CountsExactly(kind: ActionKind, d: Delivery, o: Occurrence, snoozeMinutes: int, quiet: Quiet, now: int)
    ensures var reason := CheckReactable(kind, d.status, o.status, o.expiresAt, d.snoozedUntil, now);
      && (Counts(kind, d, o, snoozeMinutes, now)
          <==> reason.None? && DecideReaction(kind, now, snoozeMinutes, quiet, o.expiresAt).Some?)
      && (reason == Some(TooLate)
          ==> o.status in {OccDone, OccSkipped, OccExpired, OccFailed} || o.expiresAt <= now)
  {
    hide Postpone;
    OpenExactly(d.status);
    ClosedStatuses(o.status);
  }

  /** What an answer writes: its own status and moment, one line of journal, and the lease is dropped. */
  lemma AnswerWrites(db: Tables, key: DeliveryKey, user: int, kind: ActionKind, now: int)
    requires React(db, key, user, kind, now).1 == Applied && kind in {DoneAction, SkipAction}
    ensures key in db.deliveries && key in React(db, key, user, kind, now).0.deliveries
    ensures React(db, key, user, kind, now).0.deliveries[key]
            == db.deliveries[key].(status := if kind == DoneAction then Done else Skipped, reactedAt := Some(now),
                                   lockedUntil := None, actions := db.deliveries[key].actions + [Action(kind, now)])
  {
    hide AllTerminal;
  }

  /** When a snooze brings the message back: after the minutes of the reminder, or at the end of the
      silence of whoever pressed it when the occurrence lives that long. */
  lemma SnoozeReturns(db: Tables, key: DeliveryKey, user: int, now: int)
    requires React(db, key, user, SnoozeAction, now).1 == Applied
    ensures key in db.deliveries && HasContext(db, key) && user in db.users
    ensures key in React(db, key, user, SnoozeAction, now).0.deliveries
    ensures var d, e := db.deliveries[key], React(db, key, user, SnoozeAction, now).0.deliveries[key];
      var quiet, expiresAt := db.users[user].quiet, db.occurrences[key.occurrence].expiresAt;
      var requested := now + db.reminders[key.occurrence.reminder].snoozeMinutes * MINUTE;
      var t := if Shift(quiet, requested) < expiresAt then Shift(quiet, requested) else requested;
      && e == d.(status := Snoozed, snoozedUntil := Some(t), nextAttemptAt := t, lockedUntil := None,
                 actions := d.actions + [Action(SnoozeAction, now)])
      && requested <= t
      && (Covers(quiet, requested) ==> requested < Shift(quiet, requested))
      && (KeepsSilence(quiet) && Shift(quiet, requested) < expiresAt ==> !Covers(quiet, t))
  {
    hide Shift, Covers, KeepsSilence, AllTerminal;
    var quiet := db.users[user].quiet;
    ShiftContract(quiet, now + db.reminders[key.occurrence.reminder].snoozeMinutes * 60_000_000);
    SilenceIsKept(quiet);
  }

  /** Once answered, every further tap is refused, whatever it is and whenever it comes. */
  lemma AnsweredRefuses(db: Tables, key: DeliveryKey, user: int, kind: ActionKind, now: int, again: ActionKind,
                        later: int)
    requires React(db, key, user, kind, now).1 == Applied && kind != SnoozeAction
    ensures var after := React(db, key, user, kind, now).0;
      React(after, key, user, again, later) == (after, Rejected(AlreadyHandled))
  {
    var r := TapShape(db, key, user, kind, now);
    hide AllTerminal, DecideReaction;
  }

  // ---------------------------------------------------------------------------------------------
  // Pause, resume, edit
  // ---------------------------------------------------------------------------------------------

  /** What a pause or an edit takes back has never gone out, been answered or been on a screen; what it
      leaves is left alone. */
  lemma DropTakesUnsentOnly(w: World, reminder: int, k: DeliveryKey)
    requires Inv(w) && reminder in w.db.reminders && k in w.db.deliveries
    ensures var d, o, after := w.db.deliveries[k], k.occurrence, DropQueued(w.db, reminder);
      && o in w.db.occurrences
      && (k !in after.deliveries <==> o !in after.occurrences)
      && (k in after.deliveries ==> after.deliveries[k] == d && after.occurrences[o] == w.db.occurrences[o])
      && (k !in after.deliveries ==>
            && o.reminder == reminder && w.db.occurrences[o].status == OccPending
            && d.status == Pending && d.sentAt.None? && d.actions == [])
  {
    hide References, OccurrencesOk, FlightsOk, Covered, Budgeted;
    assert RowOk(w.clock, w.db.deliveries[k], w.db.occurrences[k.occurrence]);
  }

  /** An occurrence is taken back exactly when it is pending and so is every delivery of it; its deliveries
      go with it, the plan starts over, and nothing else changes. */
  lemma DropExactly(db: Tables, reminder: int, o: OccurrenceKey, k: DeliveryKey)
    requires reminder in db.reminders
    ensures var after := DropQueued(db, reminder);
      && (o in after.occurrences ==> o in db.occurrences && after.occurrences[o] == db.occurrences[o])
      && (o in db.occurrences ==>
            (o !in after.occurrences <==>
               && o.reminder == reminder && db.occurrences[o].status == OccPending
               && forall j :: j in db.deliveries && j.occurrence == o ==> db.deliveries[j].status == Pending))
      && (k in after.deliveries
          <==> k in db.deliveries && (k.occurrence in db.occurrences ==> k.occurrence in after.occurrences))
      && (k in after.deliveries ==> after.deliveries[k] == db.deliveries[k])
      && after.users == db.users && after.recipients == db.recipients && reminder in after.reminders
      && after.reminders == db.reminders[reminder :=
           db.reminders[reminder].(plannedUntil := None, firedCount := after.reminders[reminder].firedCount)]
  {
    hide IsUnsent;
    UnsentExactly(db, o);
  }

  lemma UnsentExactly(db: Tables, o: OccurrenceKey)
    ensures IsUnsent(db, o) <==>
      && o in db.occurrences && db.occurrences[o].status == OccPending
      && forall j :: j in db.deliveries && j.occurrence == o ==> db.deliveries[j].status == Pending
  {
  }

  /** No occurrence of the reminder has all its deliveries still waiting for their first message. */
  ghost predicate NothingWaits(db: Tables, reminder: int) {
    forall o :: o in db.occurrences && o.reminder == reminder && db.occurrences[o].status == OccPending ==>
      exists k :: k in db.deliveries && k.occurrence == o && db.deliveries[k].status != Pending
  }

  lemma DropLeavesNothing(db: Tables, reminder: int)
    requires reminder in db.reminders
    ensures NothingWaits(DropQueued(db, reminder), reminder)
  {
    var after := DropQueued(db, reminder);
    hide DropQueued;
    forall o | o in after.occurrences && o.reminder == reminder && after.occurrences[o].status == OccPending
      ensures exists k :: k in after.deliveries && k.occurrence == o && after.deliveries[k].status != Pending
    {
      DropExactly(db, reminder, o, DeliveryKey(o, 0));
      var k :| k in db.deliveries && k.occurrence == o && db.deliveries[k].status != Pending;
      DropExactly(db, reminder, o, k);
    }
  }

  /** Who may edit a reminder: its owner, until it is archived. */
  lemma EditableExactly(db: Tables, owner: int, reminder: int)
    ensures EditableBy(db, owner, reminder)
            == if reminder !in db.reminders then Missing
               else if db.reminders[reminder].owner == owner
                       && (db.reminders[reminder].status == Active || db.reminders[reminder].status == Paused)
                           then Edited
               else Denied
  {
    if reminder in db.reminders {
      var s := db.reminders[reminder].status;
      assert s.Active? || s.Paused? || s.Archived?;
    }
  }

  /** A granted change of status stores it; leaving `active` takes back what waits, and nothing else
      changes. */
  lemma StatusExactly(db: Tables, owner: int, reminder: int, status: ReminderStatus)
    requires SetStatus(db, owner, reminder, status).1 == Edited
    ensures reminder in db.reminders
    ensures var after := SetStatus(db, owner, reminder, status).0;
      var changed := db.(reminders := db.reminders[reminder := db.reminders[reminder].(status := status)]);
      && after == (if status == Active then changed else DropQueued(changed, reminder))
      && (status != Active ==> NothingWaits(after, reminder))
  {
    hide DropQueued, NothingWaits;
    DropLeavesNothing(db.(reminders := db.reminders[reminder := db.reminders[reminder].(status := status)]), reminder);
  }

  /** A new schedule is stored exactly when the owner may edit and it fires within 366 days from the start
      or from now, whichever is later; then the plan starts over with it and nothing of the old one
      waits. Otherwise nothing changes. */
  lemma RescheduleExactly(db: Tables, owner: int, reminder: int, s: Schedule, now: int)
    ensures var (after, outcome) := ReplaceSchedule(db, owner, reminder, s, now);
      && (outcome == Edited <==>
            && EditableBy(db, owner, reminder) == Edited
            && var from := Max(db.reminders[reminder].startsAt, now);
               exists t :: from <= t <= from + 366 * DAY && Fires(s, db.reminders[reminder].zone, t))
      && (outcome != Edited ==> after == db)
      && (outcome == Edited ==>
            && reminder in after.reminders && NothingWaits(after, reminder)
            && after.reminders[reminder]
               == db.reminders[reminder].(schedule := s, plannedUntil := None,
                                          firedCount := after.reminders[reminder].firedCount)
            && forall r :: r in db.reminders && r != reminder
                  ==> r in after.reminders && after.reminders[r] == db.reminders[r])
  {
    hide FirstFireAt, Fires, DropQueued, NothingWaits;
    if EditableBy(db, owner, reminder) == Edited {
      var r := db.reminders[reminder];
      FirstFireExactly(s, r.zone, Max(r.startsAt, now));
      var changed := db.(reminders := db.reminders[reminder := r.(schedule := s)]);
      DropLeavesNothing(changed, reminder);
      DropExactly(changed, reminder, OccurrenceKey(0, 0), DeliveryKey(OccurrenceKey(0, 0), 0));
    }
  }

  lemma NothingUnsentLeft(db: Tables, reminder: int)
    requires reminder in db.reminders
    ensures Unsent(DropQueued(db, reminder), reminder) == {}
  {
    var after := DropQueued(db, reminder);
    forall o | o in after.occurrences && o.reminder == reminder ensures !IsUnsent(after, o) {
      if k :| k in db.deliveries && k.occurrence == o && db.deliveries[k].status != Pending {
        assert k in after.deliveries;
      }
    }
    hide IsUnsent;
  }

  lemma DropTwice(db: Tables, reminder: int)
    requires reminder in db.reminders
    ensures DropQueued(DropQueued(db, reminder), reminder) == DropQueued(db, reminder)
  {
    NothingUnsentLeft(db, reminder);
    DropOfNone(DropQueued(db, reminder), reminder);
    AfterDrop(db, reminder);
    hide DropQueued, Unsent;
  }

  lemma AfterDrop(db: Tables, reminder: int)
    requires reminder in db.reminders
    ensures var after := DropQueued(db, reminder);
      reminder in after.reminders && after.reminders[reminder].plannedUntil.None?
        && after.reminders[reminder].firedCount >= 0
  {
    hide Unsent;
  }

  lemma DropOfNone(db: Tables, reminder: int)
    requires reminder in db.reminders && Unsent(db, reminder) == {}
    requires db.reminders[reminder].plannedUntil.None? && db.reminders[reminder].firedCount >= 0
    ensures DropQueued(db, reminder) == db
  {
    hide Unsent;
  }

  /** Refused, it changes nothing; granted, a second call adds nothing to the first. Once paused or
      archived a reminder has nothing waiting and is never planned, and an archived one stays so. */
  lemma StatusContract(db: Tables, owner: int, reminder: int, status: ReminderStatus, again: ReminderStatus)
    ensures var (after, outcome) := SetStatus(db, owner, reminder, status);
      if outcome != Edited then after == db
      else
        && SetStatus(after, owner, reminder, status).0 == after
        && reminder in after.reminders && after.reminders[reminder].status == status
        && (status != Active ==> Unsent(after, reminder) == {} && forall h :: !PlanOf(after, reminder).Due(h))
        && (status == Archived ==> SetStatus(after, owner, reminder, again) == (after, Denied))
  {
    var (after, outcome) := SetStatus(db, owner, reminder, status);
    if outcome == Edited {
      var changed := db.(reminders := db.reminders[reminder := db.reminders[reminder].(status := status)]);
      EditedStays(db, owner, reminder, status);
      hide DropQueued, Unsent, Scheduled, EditableBy;
      if status == Active {
        assert after == changed
               && after.(reminders := after.reminders[reminder := after.reminders[reminder].(status := status)])
                  == after;
      } else {
        NothingUnsentLeft(changed, reminder);
        DropTwice(changed, reminder);
        assert after == DropQueued(changed, reminder);
        assert after.(reminders := after.reminders[reminder := after.reminders[reminder].(status := status)]) == after;
      }
    }
  }

  lemma EditedStays(db: Tables, owner: int, reminder: int, status: ReminderStatus)
    requires EditableBy(db, owner, reminder) == Edited
    ensures var after := SetStatus(db, owner, reminder, status).0;
      && reminder in after.reminders && after.reminders[reminder].status == status
      && EditableBy(after, owner, reminder) == if status == Archived then Denied else Edited
  {
    hide Unsent;
  }

  // ---------------------------------------------------------------------------------------------
  // Sharing
  // ---------------------------------------------------------------------------------------------

  /** Opening an invitation again changes nothing, and it never touches a row that is there. */
  lemma OpenTwice(db: Tables, reminder: int, user: int)
    ensures OpenInvite(OpenInvite(db, reminder, user), reminder, user) == OpenInvite(db, reminder, user)
    ensures forall r :: r in db.recipients ==> r in OpenInvite(db, reminder, user).recipients
                                               && OpenInvite(db, reminder, user).recipients[r] == db.recipients[r]
  {
    hide Watchers;
  }

  /** Opening leaves a pending watcher behind exactly when the reminder and the user are there, the user is
      no recipient yet, and fewer than ten watchers are. */
  lemma InviteExactly(db: Tables, reminder: int, user: int)
    ensures var after, key := OpenInvite(db, reminder, user), RecipientKey(reminder, user);
      var watchers := set k | k in db.recipients && k.reminder == reminder && db.recipients[k].role == Watcher;
      if reminder in db.reminders && user in db.users && key !in db.recipients && |watchers| < 10
      then after == db.(recipients := db.recipients[key := Recipient(Watcher, None)])
      else after == db
  {
  }

  /** Accepting turns a pending watcher into one who accepted now, and queues for them exactly what is
      pending and still ahead, unless it is queued already; any other press changes nothing. */
  lemma AcceptExactly(db: Tables, user: int, reminder: int, now: int, k: DeliveryKey)
    ensures var after, key := AcceptInvite(db, user, reminder, now), RecipientKey(reminder, user);
      if key in db.recipients && db.recipients[key] == Recipient(Watcher, None) then
        && after.recipients == db.recipients[key := Recipient(Watcher, Some(now))]
        && after.occurrences == db.occurrences && after.users == db.users && after.reminders == db.reminders
        && (k in db.deliveries ==> k in after.deliveries && after.deliveries[k] == db.deliveries[k])
        && (k !in db.deliveries ==>
              (k in after.deliveries <==>
                 && k.user == user && k.occurrence.reminder == reminder && k.occurrence in db.occurrences
                 && db.occurrences[k.occurrence].status == OccPending && now < db.occurrences[k.occurrence].fireAt))
        && (k !in db.deliveries && k in after.deliveries ==>
              after.deliveries[k] == Delivery(Pending, 0, db.occurrences[k.occurrence].fireAt, None, None, None, None,
                                              []))
      else after == db
  {
    UpcomingExist(db, reminder, now);
    assert k.occurrence in Upcoming(db, reminder, now) <==>
      && k.occurrence in db.occurrences && k.occurrence.reminder == reminder
      && db.occurrences[k.occurrence].status == OccPending && now < db.occurrences[k.occurrence].fireAt;
    hide Upcoming;
    if k.user == user { assert k == DeliveryKey(k.occurrence, user); }
  }

  // ---------------------------------------------------------------------------------------------
  // A planner cycle
  // ---------------------------------------------------------------------------------------------

  /** A cycle queues every instant it expanded for the owner and for each watcher who accepted, and for
      nobody else; a row that is there stays as it is. */
  lemma CycleQueues(db: Tables, reminder: int, horizonEnd: int, ttl: nat, k: DeliveryKey)
    requires reminder in db.reminders && db.reminders[reminder].owner in db.users
    ensures var after := MaterializeOne(db, reminder, horizonEnd, ttl);
      && (k in db.deliveries ==> k in after.deliveries && after.deliveries[k] == db.deliveries[k])
      && (k !in db.deliveries ==>
            (k in after.deliveries <==>
               && k.occurrence.reminder == reminder
               && k.occurrence.scheduledFor in PlanOf(db, reminder).Moments(horizonEnd)
               && RecipientKey(reminder, k.user) in db.recipients
               && var r := db.recipients[RecipientKey(reminder, k.user)]; r.role == Owner || r.acceptedAt.Some?))
      && (k !in db.deliveries && k in after.deliveries ==>
            && k.occurrence in after.occurrences
            && after.deliveries[k]
               == Delivery(Pending, 0, after.occurrences[k.occurrence].fireAt, None, None, None, None, []))
  {
    hide MaterializeOne, Plan.Moments, Plan.Cycle, FreshOccurrence, InsertOccurrences, AcceptedUsers, KeysOf,
         InsertDeliveries;
    var after := MaterializeOne(db, reminder, horizonEnd, ttl);
    var moments := PlanOf(db, reminder).Moments(horizonEnd);
    MaterializeShape(db, reminder, horizonEnd, ttl);
    QueuedPairs(db.deliveries, after.occurrences, KeysOf(reminder, moments), AcceptedUsers(db, reminder), k);
    KeyOfMoment(reminder, moments, k.occurrence);
    AcceptedExactly(db, reminder, k.user);
  }

  lemma QueuedPairs(rows: map<DeliveryKey, Delivery>, occurrences: map<OccurrenceKey, Occurrence>,
                    keys: set<OccurrenceKey>, users: set<int>, k: DeliveryKey)
    requires keys <= occurrences.Keys
    ensures var after := InsertDeliveries(rows, occurrences, keys, users);
      && (k in rows ==> k in after && after[k] == rows[k])
      && (k !in rows ==> (k in after <==> k.occurrence in keys && k.user in users))
      && (k !in rows && k in after ==>
            after[k] == Delivery(Pending, 0, occurrences[k.occurrence].fireAt, None, None, None, None, []))
  {
    assert k == DeliveryKey(k.occurrence, k.user);
  }

  lemma KeyOfMoment(reminder: int, moments: seq<int>, o: OccurrenceKey)
    ensures o in KeysOf(reminder, moments) <==> o.reminder == reminder && o.scheduledFor in moments
  {
    assert o == OccurrenceKey(o.reminder, o.scheduledFor);
  }

  lemma AcceptedExactly(db: Tables, reminder: int, user: int)
    ensures user in AcceptedUsers(db, reminder) <==>
      && RecipientKey(reminder, user) in db.recipients
      && var r := db.recipients[RecipientKey(reminder, user)]; r.role == Owner || r.acceptedAt.Some?
  {
    assert forall k: RecipientKey :: k.reminder == reminder && k.user == user ==> k == RecipientKey(reminder, user);
  }

  // ---------------------------------------------------------------------------------------------
  // A sweep
  // ---------------------------------------------------------------------------------------------

  /** Of the batch, what is open and past its lifetime is expired, and each message of it that was sent and
      not answered gets its silence; nothing else changes. */
  lemma ExpiresExactly(db: Tables, batch: seq<OccurrenceKey>, now: int, o: OccurrenceKey, k: DeliveryKey)
    requires forall i, j :: 0 <= i < j < |batch| ==> batch[i] != batch[j]
    ensures var after := Expire(db, Members(OverdueOf(db, batch, now)), now);
      && after.occurrences.Keys == db.occurrences.Keys && after.deliveries.Keys == db.deliveries.Keys
      && (o in db.occurrences ==>
            after.occurrences[o]
            == if o in batch && db.occurrences[o].status in {OccPending, OccDispatching, OccSent}
                  && db.occurrences[o].expiresAt < now
               then db.occurrences[o].(status := OccExpired) else db.occurrences[o])
      && (k in db.deliveries ==>
            after.deliveries[k]
            == if k.occurrence in batch && k.occurrence in db.occurrences
                  && db.occurrences[k.occurrence].status in {OccPending, OccDispatching, OccSent}
                  && db.occurrences[k.occurrence].expiresAt < now && db.deliveries[k].status == Sent
               then db.deliveries[k].(actions := db.deliveries[k].actions + [Action(AutoExpireAction, now)])
               else db.deliveries[k])
  {
    OverdueAre(db, batch, now);
    if o in db.occurrences { ClosedStatuses(db.occurrences[o].status); }
    if k.occurrence in db.occurrences { ClosedStatuses(db.occurrences[k.occurrence].status); }
    hide OverdueOf, IsClosed;
  }

  /** Which of its candidates a sweep takes back: messages sent and never answered, of an occurrence with
      repeats left, whose time has come and whose recipient's silence ends while it lives. They wait for
      the end of that silence. */
  lemma RepeatsExactly(db: Tables, candidates: set<DeliveryKey>, now: int, k: DeliveryKey)
    requires k in db.deliveries && HasContext(db, k)
    ensures k in Repeat(db, candidates, now).deliveries
    ensures var d, o, r, e := db.deliveries[k], db.occurrences[k.occurrence], db.reminders[k.occurrence.reminder],
                              Repeat(db, candidates, now).deliveries[k];
      var moment := Shift(db.users[k.user].quiet, now);
      e == if k in candidates && d.status == Sent && d.reactedAt.None? && d.sentAt.Some? && r.repeatAfterMinutes.Some?
              && o.repeatsSent < r.maxRepeats && d.sentAt.value + r.repeatAfterMinutes.value * MINUTE <= now
              && moment < o.expiresAt
           then d.(status := Pending, nextAttemptAt := moment, lockedUntil := None) else d
  {
    var d, o, r := db.deliveries[k], db.occurrences[k.occurrence], db.reminders[k.occurrence.reminder];
    RepeatContract(d.sentAt, r.repeatAfterMinutes, o.repeatsSent, r.maxRepeats, o.expiresAt, db.users[k.user].quiet,
                   now);
    hide Shift, Covers, KeepsSilence;
  }

  ghost predicate NoNewWatchers(a: Tables, b: Tables) {
    forall k :: k in b.recipients && b.recipients[k].role == Watcher
        ==> k in a.recipients && a.recipients[k].role == Watcher
  }

  lemma WatchersShrink(a: Tables, b: Tables, r: int)
    requires NoNewWatchers(a, b)
    ensures |Watchers(b, r)| <= |Watchers(a, r)|
  {
    assert Watchers(b, r) <= Watchers(a, r);
    SubsetIsSmaller(Watchers(b, r), Watchers(a, r));
  }

  lemma PlanRecipients(db: Tables, reminder: int, horizonEnd: int, ttl: nat)
    requires reminder in db.reminders
    ensures MaterializeOne(db, reminder, horizonEnd, ttl).recipients == db.recipients
  {
    hide InsertDeliveries, InsertOccurrences, Plan.Moments, Plan.Cycle, AcceptedUsers;
  }

  lemma EditRecipients(db: Tables, owner: int, reminder: int, status: ReminderStatus, s: Schedule, now: int)
    ensures SetStatus(db, owner, reminder, status).0.recipients == db.recipients
    ensures ReplaceSchedule(db, owner, reminder, s, now).0.recipients == db.recipients
  {
    hide Unsent, FirstFireAt;
  }

  /** Nobody becomes a watcher except through an invitation. */
  lemma WatchersStep(w: World, s: Step)
    requires Legal(w, s) && !s.event.Invite?
    ensures NoNewWatchers(w.db, Next(w, s).db)
  {
    NextParts(w, s);
    hide Flights, Next, Sweep, MaterializeOne, SetStatus, ReplaceSchedule, React, InsertDeliveries, Upcoming, Claim;
    match s.event
    case Reap(overdue, candidates) => SweepTerms(w.db, overdue, candidates, s.now);
    case Tap(key, user, kind) => TapTerms(w.db, key, user, kind, s.now);
    case Materialize(q, horizonEnd, ttl) => PlanRecipients(w.db, q, horizonEnd, ttl);
    case ChangeStatus(owner, q, status) => EditRecipients(w.db, owner, q, status, Once(0), s.now);
    case Reschedule(owner, q, schedule) => EditRecipients(w.db, owner, q, Active, schedule, s.now);
    case ClaimBatch(_, batch, lockFor) => ClaimRecipients(w.db, batch, s.now, lockFor);
    case Attempt(_, _, _) => hide VerdictFor, SettledRow, MovesOn;
    case _ =>
  }

  lemma ClaimRecipients(db: Tables, batch: set<DeliveryKey>, now: int, lockFor: int)
    ensures Claim(db, batch, now, lockFor).recipients == db.recipients
  {
  }

  lemma InviteKeepsRoom(db: Tables, reminder: int, user: int, r: int)
    requires |Watchers(db, r)| <= 10
    ensures |Watchers(OpenInvite(db, reminder, user), r)| <= 10
  {
    var after, key := OpenInvite(db, reminder, user), RecipientKey(reminder, user);
    if after == db {
    } else if r == reminder {
      assert Watchers(after, r) == Watchers(db, r) + {key};
    } else {
      assert Watchers(after, r) == Watchers(db, r);
    }
  }

  lemma RoomStep(w: World, s: Step, r: int)
    requires Legal(w, s) && |Watchers(w.db, r)| <= 10
    ensures |Watchers(Next(w, s).db, r)| <= 10
  {
    hide Legal, Watchers, Next;
    if s.event.Invite? {
      InviteIs(w, s);
      InviteKeepsRoom(w.db, s.event.reminder, s.event.user, r);
    } else {
      WatchersStep(w, s);
      WatchersShrink(w.db, Next(w, s).db, r);
    }
  }

  lemma InviteIs(w: World, s: Step)
    requires s.event.Invite?
    ensures Next(w, s).db == OpenInvite(w.db, s.event.reminder, s.event.user)
  {
    hide OpenInvite, Flights;
  }

  /** No run leaves a reminder with more than ten watchers, pending invitations included. */
  lemma {:induction false} TenWatchersAtMost(ws: seq<World>, steps: seq<Step>, i: nat, r: int)
    requires IsRun(ws, steps) && IsEmpty(ws[0]) && i < |ws|
    ensures |Watchers(ws[i].db, r)| <= WATCHERS_MAX
  {
    hide Legal, Next;
    if i == 0 {
      assert Watchers(ws[0].db, r) == {};
    } else {
      TenWatchersAtMost(ws, steps, i - 1, r);
      assert ws[i - 1 + 1] == Next(ws[i - 1], steps[i - 1]);
      RoomStep(ws[i - 1], steps[i - 1], r);
    }
  }

  /** Leaving takes back exactly what is waiting for the user, leaves everybody else and the occurrences
      alone, and is done once. */
  lemma LeaveContract(db: Tables, user: int, reminder: int, k: DeliveryKey)
    ensures var after := Leave(db, user, reminder);
      && after.occurrences == db.occurrences && after.reminders == db.reminders && after.users == db.users
      && (k in after.deliveries ==> k in db.deliveries && after.deliveries[k] == db.deliveries[k])
      && (k in after.deliveries && k.user == user && k.occurrence.reminder == reminder
          ==> after.deliveries[k].status != Pending)
      && (k in db.deliveries && k !in after.deliveries ==>
            k.user == user && k.occurrence.reminder == reminder && db.deliveries[k].status == Pending)
      && RecipientKey(reminder, user) !in Watchers(after, reminder)
      && (forall r :: r in db.recipients && r != RecipientKey(reminder, user) ==>
            r in after.recipients && after.recipients[r] == db.recipients[r])
      && Leave(after, user, reminder) == after
  {
    LeaveTwice(db, user, reminder);
  }

  lemma LeaveTwice(db: Tables, user: int, reminder: int)
    ensures Leave(Leave(db, user, reminder), user, reminder) == Leave(db, user, reminder)
  {
    var after := Leave(db, user, reminder);
    assert forall k :: k in after.deliveries ==> !IsQueuedFor(k, after.deliveries[k], reminder, user);
    assert Leave(after, user, reminder).deliveries == after.deliveries;
  }

  /** An invitation opened, accepted and left at once leaves no trace. */
  lemma InvitedAndLeft(db: Tables, reminder: int, user: int, now: int)
    requires RecipientKey(reminder, user) !in db.recipients
    requires forall k :: k in db.deliveries && k.occurrence.reminder == reminder ==> k.user != user
    ensures Leave(AcceptInvite(OpenInvite(db, reminder, user), user, reminder, now), user, reminder) == db
  {
    hide OpenInvite, AcceptInvite, Leave, IsQueuedFor;
    var invited := OpenInvite(db, reminder, user);
    var accepted := AcceptInvite(invited, user, reminder, now);
    var left := Leave(accepted, user, reminder);
    OpenedIs(db, reminder, user);
    AcceptedIs(invited, reminder, user, now);
    forall k
      ensures k in left.deliveries <==> k in db.deliveries
      ensures k in db.deliveries ==> left.deliveries[k] == db.deliveries[k]
    {
      AcceptedRow(invited, reminder, user, now, k);
      LeftRow(accepted, user, reminder, k);
      if k in db.deliveries { NotQueuedFor(k, db.deliveries[k], reminder, user); }
    }
    assert left.deliveries == db.deliveries;
    LeftRecipients(accepted, user, reminder);
    assert left.recipients == db.recipients;
  }

  lemma NotQueuedFor(k: DeliveryKey, d: Delivery, reminder: int, user: int)
    requires k.occurrence.reminder == reminder ==> k.user != user
    ensures !IsQueuedFor(k, d, reminder, user)
  {
  }

  lemma LeftRow(db: Tables, user: int, reminder: int, k: DeliveryKey)
    ensures var left := Leave(db, user, reminder);
      && (k in left.deliveries <==> k in db.deliveries && !IsQueuedFor(k, db.deliveries[k], reminder, user))
      && (k in left.deliveries ==> left.deliveries[k] == db.deliveries[k])
  {
    hide IsQueuedFor;
  }

  lemma LeftRecipients(db: Tables, user: int, reminder: int)
    ensures var left, key := Leave(db, user, reminder), RecipientKey(reminder, user);
      && left == db.(recipients := left.recipients, deliveries := left.deliveries)
      && left.recipients == if key in db.recipients && db.recipients[key].role == Watcher then db.recipients - {key}
         else db.recipients
  {
    hide IsQueuedFor;
  }

  lemma OpenedIs(db: Tables, reminder: int, user: int)
    requires RecipientKey(reminder, user) !in db.recipients
    ensures var invited, key := OpenInvite(db, reminder, user), RecipientKey(reminder, user);
      invited == db || invited == db.(recipients := db.recipients[key := Recipient(Watcher, None)])
  {
    hide Watchers;
  }

  lemma AcceptedIs(db: Tables, reminder: int, user: int, now: int)
    ensures var accepted, key := AcceptInvite(db, user, reminder, now), RecipientKey(reminder, user);
      && accepted == db.(recipients := accepted.recipients, deliveries := accepted.deliveries)
      && (key !in db.recipients ==> accepted == db)
      && (key in db.recipients ==> accepted.recipients == db.recipients[key := accepted.recipients[key]]
                                   && accepted.recipients[key].role == db.recipients[key].role)
  {
    hide InsertDeliveries, Upcoming;
  }

  /** What accepting adds is waiting and for nobody else. */
  lemma AcceptedRow(db: Tables, reminder: int, user: int, now: int, k: DeliveryKey)
    ensures var accepted := AcceptInvite(db, user, reminder, now);
      && (k in db.deliveries ==> k in accepted.deliveries && accepted.deliveries[k] == db.deliveries[k])
      && (k in accepted.deliveries && k !in db.deliveries ==> IsQueuedFor(k, accepted.deliveries[k], reminder, user))
  {
    UpcomingExist(db, reminder, now);
    var upcoming := Upcoming(db, reminder, now);
    assert forall o :: o in upcoming ==> o.reminder == reminder;
    hide Upcoming;
  }

  // ---------------------------------------------------------------------------------------------
  // Steps of a run
  // ---------------------------------------------------------------------------------------------

  /** Users are free to act at any time: only the workers and the buttons of a message wait for
      anything. */
  lemma UsersAreFree(w: World, s: Step)
    requires w.clock <= s.now
    requires s.event.AddUser? || s.event.ChangeUser? || s.event.Unblock? || s.event.EditRepeat? || s.event.ChangeStatus?
          || s.event.Reschedule? || s.event.Invite? || s.event.AcceptInvitation? || s.event.Decline?
          || s.event.Load? || s.event.Crash?
          || (s.event.Tap? && s.event.kind in {DoneAction, SnoozeAction, SkipAction}
              && s.event.key in w.db.deliveries && w.db.deliveries[s.event.key].sentAt.Some?)
    ensures Legal(w, s)
  {
    hide React, Flights;
  }

  /** And what they do is what the services do. */
  lemma StepsAreTransactions(w: World, s: Step)
    requires Legal(w, s)
    ensures var db, after := w.db, Next(w, s).db;
      match s.event
      case AddUser(u, profile) => after == if u in db.users then db else db.(users := db.users[u := profile])
      case ChangeUser(u, quiet) => u in db.users ==> after == db.(users := db.users[u := db.users[u].(quiet := quiet)])
      case Unblock(u) => u in db.users ==> after == db.(users := db.users[u := db.users[u].(blocked := false)])
      case Create(r, row) =>
        after == db.(reminders := db.reminders[r := row],
                     recipients := db.recipients[RecipientKey(r, row.owner) := Recipient(Owner, Some(s.now))])
      case EditRepeat(r, snooze, repeatAfter) => r in db.reminders ==>
        after == db.(reminders := db.reminders[r :=
                   db.reminders[r].(snoozeMinutes := snooze, repeatAfterMinutes := repeatAfter)])
      case ChangeStatus(owner, r, status) => after == SetStatus(db, owner, r, status).0
      case Reschedule(owner, r, schedule) => after == ReplaceSchedule(db, owner, r, schedule, s.now).0
      case Invite(r, u) => after == OpenInvite(db, r, u)
      case AcceptInvitation(u, r) => after == AcceptInvite(db, u, r, s.now)
      case Decline(u, r) => after == RemoveWatcher(db, u, r)
      case LeaveReminder(u, r) => after == Leave(db, u, r)
      case Materialize(r, horizonEnd, ttl) => after == MaterializeOne(db, r, horizonEnd, ttl)
      case ClaimBatch(_, batch, lockFor) => after == Claim(db, batch, s.now, lockFor)
      case Load(_) => after == db
      case Attempt(session, key, result) =>
        after == DeliverOne(db, key, w.inFlight[FlightKey(session, key)], s.now, result)
      case Crash(_) => after == db
      case Tap(key, u, kind) => after == React(db, key, u, kind, s.now).0
      case Reap(overdue, candidates) => after == Sweep(db, overdue, candidates, s.now)
  {
    hide Flights, SetStatus, ReplaceSchedule, OpenInvite, AcceptInvite, RemoveWatcher, Leave, MaterializeOne, Claim,
         DeliverOne, React, Sweep, Claimable;
  }
}
