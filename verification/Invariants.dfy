/** What holds at every point of every run, whatever the timing. */
module Invariants {
  import opened Ordering
  import opened Planning
  import opened QuietHours
  import opened Contracts
  import opened Retry
  import opened Recurrence
  import opened Store
  import opened Runs
  import opened Steps

  /** A delivery next to its occurrence. */
  ghost predicate RowOk(clock: int, d: Delivery, o: Occurrence) {
    // Nothing happens to a delivery before its moment, nor before its first message.
    && o.fireAt <= d.nextAttemptAt
    && (clock < o.fireAt ==> d.status == Pending && d.sentAt.None?)
    && (d.sentAt.None? ==> d.actions == [] && d.status in {Pending, Failed, Blocked})
    // The first message moves the occurrence on, and a snooze lasts as long as it promised.
    && (d.sentAt.Some? ==> !IsSendable(o.status))
    && (d.status == Snoozed ==> d.snoozedUntil == Some(d.nextAttemptAt))
  }

  ghost predicate OccurrenceOk(clock: int, o: Occurrence, maxRepeats: nat) {
    && o.fireAt <= o.expiresAt
    && (o.status != OccPending ==> o.fireAt <= clock)
    && (o.status == OccExpired ==> o.expiresAt < clock)
    && o.repeatsSent <= maxRepeats
    && o.status !in {OccDispatching, OccFailed}
  }

  /** A row on its way next to its occurrence. */
  ghost predicate FlightOk(w: World, f: FlightKey, flight: Flight) {
    && (flight.row ==> flight.occurrence && f.delivery in w.db.deliveries)
    && (flight.occurrence ==>
          && f.delivery.occurrence in w.db.occurrences
          && w.db.occurrences[f.delivery.occurrence].fireAt <= w.clock
          && (flight.view.Seen? && !IsSendable(flight.view.status)
              ==> !IsSendable(w.db.occurrences[f.delivery.occurrence].status)))
  }

  ghost predicate RowsOk(w: World) {
    forall k :: k in w.db.deliveries ==>
      k.occurrence in w.db.occurrences && RowOk(w.clock, w.db.deliveries[k], w.db.occurrences[k.occurrence])
  }

  ghost predicate OccurrencesOk(w: World) {
    forall o :: o in w.db.occurrences ==>
      o.reminder in w.db.reminders && OccurrenceOk(w.clock, w.db.occurrences[o], w.db.reminders[o.reminder].maxRepeats)
  }

  ghost predicate FlightsOk(w: World) {
    forall f :: f in w.inFlight ==> FlightOk(w, f, w.inFlight[f])
  }

  /** Everybody who accepted has a row for everything still ahead. */
  ghost predicate Covered(db: Tables, clock: int) {
    forall o, r :: o in db.occurrences && r in db.recipients && r.reminder == o.reminder
      && IsAccepted(db.recipients[r]) && clock < db.occurrences[o].fireAt
      ==> DeliveryKey(o, r.user) in db.deliveries
  }

  /** The counter is the number of rows, and the budget is never exceeded. */
  ghost predicate Budgeted(db: Tables) {
    forall r :: r in db.reminders ==>
      && db.reminders[r].firedCount == |Scheduled(db, r)|
      && (db.reminders[r].maxOccurrences.Some? ==> |Scheduled(db, r)| <= db.reminders[r].maxOccurrences.value)
  }

  /** The tables fit together. */
  ghost predicate Fits(db: Tables, clock: int) {
    References(db) && Covered(db, clock) && Budgeted(db)
  }

  ghost predicate Inv(w: World) {
    Fits(w.db, w.clock) && RowsOk(w) && OccurrencesOk(w) && FlightsOk(w)
  }

  /** Only a pending occurrence can lie ahead. */
  ghost predicate AheadIsPending(db: Tables, clock: int) {
    forall o :: o in db.occurrences && clock < db.occurrences[o].fireAt ==> db.occurrences[o].status == OccPending
  }

  // ---------------------------------------------------------------------------------------------
  // Rows, occurrences and flights, from the shape of a step
  // ---------------------------------------------------------------------------------------------

  lemma RowKeeps(w: World, s: Step, k: DeliveryKey, e: Delivery, b: Occurrence)
    requires FlightsOk(w) && Legal(w, s) && k in w.db.deliveries && k.occurrence in w.db.occurrences
    requires RowOk(w.clock, w.db.deliveries[k], w.db.occurrences[k.occurrence])
    requires RowChange(w, s, k, w.db.deliveries[k], e)
    requires OccurrenceChange(w, s, k.occurrence, w.db.occurrences[k.occurrence], b)
    requires !IsSendable(w.db.occurrences[k.occurrence].status) ==> !IsSendable(b.status)
    ensures RowOk(s.now, e, b)
  {
    hide React, AllTerminal, Backoff, CountOf, References;
    if s.event.Attempt? {
      var own := FlightKey(s.event.session, s.event.key);
      assert FlightOk(w, own, w.inFlight[own]);
      BackoffGrows(w.inFlight[own].attempts, w.inFlight[own].attempts);
    }
  }

  lemma FreshRow(clock: int, o: Occurrence)
    ensures RowOk(clock, FreshDelivery(o.fireAt), o)
  {
  }

  lemma RowsStep(w: World, s: Step)
    requires RowsOk(w) && FlightsOk(w) && References(w.db) && References(Next(w, s).db) && Legal(w, s)
    ensures RowsOk(Next(w, s))
  {
    var v := Next(w, s);
    hide RowOk, Next, RowChange, OccurrenceChange, FlightsOk;
    forall k | k in v.db.deliveries
      ensures k.occurrence in v.db.occurrences && RowOk(v.clock, v.db.deliveries[k], v.db.occurrences[k.occurrence])
    {
      ClockOf(w, s);
      EveryRowSteps(w, s, k);
      EveryOccurrenceSteps(w, s, k.occurrence);
      if k in w.db.deliveries {
        OccurrenceKeeps(w, s, k.occurrence);
        RowKeeps(w, s, k, v.db.deliveries[k], v.db.occurrences[k.occurrence]);
      } else {
        FreshRow(v.clock, v.db.occurrences[k.occurrence]);
      }
    }
  }

  lemma ClockOf(w: World, s: Step)
    ensures Next(w, s).clock == s.now
  {
    hide Effect, Flights;
  }

  lemma OccurrenceKept(w: World, s: Step, o: OccurrenceKey, b: Occurrence, maxRepeats: nat)
    requires RowsOk(w) && FlightsOk(w) && Legal(w, s) && o in w.db.occurrences && o.reminder in w.db.reminders
    requires maxRepeats == w.db.reminders[o.reminder].maxRepeats
    requires OccurrenceOk(w.clock, w.db.occurrences[o], maxRepeats)
    requires OccurrenceChange(w, s, o, w.db.occurrences[o], b)
    ensures OccurrenceOk(s.now, b, maxRepeats)
  {
    hide React, AllTerminal, References;
    if s.event.Attempt? {
      var own := FlightKey(s.event.session, s.event.key);
      assert FlightOk(w, own, w.inFlight[own]);
    }
    if s.event.Tap? && ClosedByTap(w, s, o, w.db.occurrences[o].status, b.status) {
      var r := TapShape(w.db, s.event.key, s.event.user, s.event.kind, s.now);
      assert RowOk(w.clock, w.db.deliveries[s.event.key], w.db.occurrences[o]);
    }
  }

  lemma OccurrencesStep(w: World, s: Step)
    requires RowsOk(w) && FlightsOk(w) && OccurrencesOk(w) && References(Next(w, s).db) && Legal(w, s)
    ensures OccurrencesOk(Next(w, s))
  {
    var v := Next(w, s);
    EveryTermsKept(w, s);
    ClockOf(w, s);
    hide OccurrenceOk, Next, OccurrenceChange, FlightsOk, RowsOk;
    forall o | o in v.db.occurrences
      ensures o.reminder in v.db.reminders
      ensures OccurrenceOk(v.clock, v.db.occurrences[o], v.db.reminders[o.reminder].maxRepeats)
    {
      EveryOccurrenceSteps(w, s, o);
      if o in w.db.occurrences {
        OccurrenceKept(w, s, o, v.db.occurrences[o], w.db.reminders[o.reminder].maxRepeats);
        assert SameTerms(w.db.reminders[o.reminder], v.db.reminders[o.reminder]);
      } else {
        PlannedIsOk(v.clock, v.db.occurrences[o], v.db.reminders[o.reminder].maxRepeats);
      }
    }
  }

  lemma PlannedIsOk(clock: int, o: Occurrence, maxRepeats: nat)
    requires IsPlanned(o)
    ensures OccurrenceOk(clock, o, maxRepeats)
  {
  }

  lemma ClaimedIsDue(w: World, s: Step, k: DeliveryKey)
    requires RowsOk(w) && Legal(w, s) && s.event.ClaimBatch? && k in s.event.batch
    ensures k in w.db.deliveries && k.occurrence in w.db.occurrences && w.db.occurrences[k.occurrence].fireAt <= s.now
  {
    assert RowOk(w.clock, w.db.deliveries[k], w.db.occurrences[k.occurrence]);
  }

  lemma ReadIsSendable(db: Tables, f: FlightKey, flight: Flight)
    requires flight.view.Seen? && !IsSendable(flight.view.status) && f.delivery.occurrence in db.occurrences
             ==> !IsSendable(db.occurrences[f.delivery.occurrence].status)
    ensures var view := Read(db, f, flight).view;
      view.Seen? && !IsSendable(view.status) && f.delivery.occurrence in db.occurrences
      ==> !IsSendable(db.occurrences[f.delivery.occurrence].status)
  {
  }

  lemma FlightKeeps(w: World, s: Step, f: FlightKey)
    requires FlightsOk(w) && References(Next(w, s).db) && Legal(w, s)
    requires f in Next(w, s).inFlight && f in w.inFlight
    ensures FlightOk(Next(w, s), f, Next(w, s).inFlight[f])
  {
    var v := Next(w, s);
    var was, flight, o := w.inFlight[f], v.inFlight[f], f.delivery.occurrence;
    FlightStep(w, s, f);
    ViewStep(w, s, f);
    ClockOf(w, s);
    assert FlightOk(w, f, was);
    hide Next, Legal, References;
    if flight.occurrence {
      OccurrenceKeeps(w, s, o);
      match s.event
      case Load(_) => ReadIsSendable(w.db, f, was);
      case Attempt(session, key, result) => AttemptMoves(w, s, o);
      case _ =>
    }
    RowStands(w, s, f);
  }

  lemma RowStands(w: World, s: Step, f: FlightKey)
    requires FlightsOk(w) && References(Next(w, s).db) && f in Next(w, s).inFlight && f in w.inFlight
    ensures Next(w, s).inFlight[f].row ==> Next(w, s).inFlight[f].occurrence
  {
    hide Effect, Refreshed, ViewOf;
    assert FlightOk(w, f, w.inFlight[f]);
  }

  /** Whatever a session comes to know as sent has been sent. */
  lemma AttemptMoves(w: World, s: Step, o: OccurrenceKey)
    requires FlightsOk(w) && Legal(w, s) && s.event.Attempt? && o in w.db.occurrences && o in Next(w, s).db.occurrences
    ensures var own := FlightKey(s.event.session, s.event.key);
      MovesOn(w.inFlight[own], s.event.result) && s.event.key.occurrence == o
      ==> !IsSendable(Next(w, s).db.occurrences[o].status)
  {
    hide Next, MovesOn;
    EveryOccurrenceSteps(w, s, o);
  }

  lemma FlightsStep(w: World, s: Step)
    requires RowsOk(w) && FlightsOk(w) && References(w.db) && References(Next(w, s).db) && Legal(w, s)
    ensures FlightsOk(Next(w, s))
  {
    var v := Next(w, s);
    hide Next, FlightOk, FlightsOk, RowsOk, References;
    forall f | f in v.inFlight ensures FlightOk(v, f, v.inFlight[f]) {
      if f in w.inFlight {
        FlightKeeps(w, s, f);
      } else {
        NewFlight(w, s, f);
      }
    }
    FlightsAll(v);
  }

  lemma FlightsAll(w: World)
    requires forall f :: f in w.inFlight ==> FlightOk(w, f, w.inFlight[f])
    ensures FlightsOk(w)
  {
  }

  lemma NewFlight(w: World, s: Step, f: FlightKey)
    requires RowsOk(w) && References(w.db) && References(Next(w, s).db) && Legal(w, s)
    requires f in Next(w, s).inFlight && f !in w.inFlight
    ensures FlightOk(Next(w, s), f, Next(w, s).inFlight[f])
  {
    FlightStep(w, s, f);
    ClockOf(w, s);
    ClaimedIsDue(w, s, f.delivery);
    hide Next, Legal, References, RowsOk;
    ClaimKeepsKeys(w, s);
    if f.delivery.occurrence in Next(w, s).db.occurrences {
      OccurrenceKeeps(w, s, f.delivery.occurrence);
    }
    RowStandsNew(w, s, f);
  }

  lemma ClaimKeepsKeys(w: World, s: Step)
    requires s.event.ClaimBatch?
    ensures Next(w, s).db.occurrences == w.db.occurrences && Next(w, s).db.deliveries.Keys == w.db.deliveries.Keys
  {
    hide ClaimRow, Flights;
  }

  lemma RowStandsNew(w: World, s: Step, f: FlightKey)
    requires References(w.db) && s.event.ClaimBatch? && f in Next(w, s).inFlight && f !in w.inFlight
    ensures Next(w, s).inFlight[f].row ==> Next(w, s).inFlight[f].occurrence
  {
    hide ClaimRow, Claimable;
  }

  // ---------------------------------------------------------------------------------------------
  // Steps that only rewrite rows
  // ---------------------------------------------------------------------------------------------

  ghost predicate SameShape(a: Tables, b: Tables) {
    && TermsKept(a, b)
    && a.reminders.Keys == b.reminders.Keys
    && (forall r :: r in a.reminders ==> a.reminders[r].firedCount == b.reminders[r].firedCount)
    && a.recipients == b.recipients
    && a.occurrences.Keys == b.occurrences.Keys
    && (forall o :: o in a.occurrences ==> a.occurrences[o].fireAt == b.occurrences[o].fireAt)
    && a.deliveries.Keys == b.deliveries.Keys
  }

  lemma SameScheduled(a: Tables, b: Tables, r: int)
    requires a.occurrences.Keys == b.occurrences.Keys
    ensures Scheduled(a, r) == Scheduled(b, r)
  {
    forall t ensures t in Scheduled(a, r) <==> t in Scheduled(b, r) {
      assert t in Scheduled(a, r) <==> OccurrenceKey(r, t) in a.occurrences.Keys;
      assert t in Scheduled(b, r) <==> OccurrenceKey(r, t) in b.occurrences.Keys;
    }
  }

  lemma ShapeKeepsReferences(a: Tables, b: Tables)
    requires References(a) && SameShape(a, b)
    ensures References(b)
  {
    assert forall k :: k in b.deliveries ==> k in a.deliveries.Keys;
    assert forall o :: o in b.occurrences ==> o in a.occurrences.Keys;
    assert forall o :: o in a.occurrences ==> o in b.occurrences.Keys;
    assert forall r :: r in b.reminders ==> r in a.reminders.Keys;
    assert forall r :: r in a.reminders ==> r in b.reminders.Keys;
    assert forall u :: u in a.users ==> u in b.users.Keys;
  }

  lemma ShapeKeepsFit(a: Tables, b: Tables, clock: int, now: int)
    requires Fits(a, clock) && SameShape(a, b) && clock <= now
    ensures Fits(b, now)
  {
    ShapeKeepsReferences(a, b);
    hide References;
    forall o, r | o in b.occurrences && r in b.recipients && r.reminder == o.reminder
                  && IsAccepted(b.recipients[r]) && now < b.occurrences[o].fireAt
      ensures DeliveryKey(o, r.user) in b.deliveries
    {
      assert o in a.occurrences.Keys;
      assert DeliveryKey(o, r.user) in a.deliveries.Keys;
    }
    ShapeKeepsBudget(a, b);
  }

  lemma ShapeKeepsBudget(a: Tables, b: Tables)
    requires Budgeted(a) && SameShape(a, b)
    ensures Budgeted(b)
  {
    forall r | r in b.reminders
      ensures b.reminders[r].firedCount == |Scheduled(b, r)|
      ensures b.reminders[r].maxOccurrences.Some? ==> |Scheduled(b, r)| <= b.reminders[r].maxOccurrences.value
    {
      assert r in a.reminders.Keys;
      assert SameTerms(a.reminders[r], b.reminders[r]);
      SameScheduled(a, b, r);
    }
    hide Scheduled;
  }

  lemma SweepShape(db: Tables, overdue: set<OccurrenceKey>, candidates: set<DeliveryKey>, now: int)
    ensures SameShape(db, Sweep(db, overdue, candidates, now))
  {
    hide IsRepeated, ReleaseRow, RepeatRow, RepeatMoment, ExpireRow;
  }

  lemma TapShapeKept(w: World, s: Step)
    requires s.event.Tap? && Legal(w, s)
    ensures SameShape(w.db, Next(w, s).db)
  {
    TapTerms(w.db, s.event.key, s.event.user, s.event.kind, s.now);
    hide React, Flights, OccurrenceChange;
    forall o | o in w.db.occurrences ensures w.db.occurrences[o].fireAt == Next(w, s).db.occurrences[o].fireAt {
      OccurrenceKeeps(w, s, o);
    }
  }

  predicate IsRewriting(e: Event) {
    || e.AddUser? || e.ChangeUser? || e.Unblock? || e.EditRepeat? || e.Crash? || e.Load? || e.ClaimBatch? || e.Attempt?
       || e.Tap? || e.Reap?
  }

  lemma RewritingShape(w: World, s: Step)
    requires Legal(w, s) && IsRewriting(s.event)
    ensures SameShape(w.db, Next(w, s).db)
  {
    hide Flights, Sweep, Claim, DeliverOne, React, SameShape, Claimable;
    match s.event
    case Tap(_, _, _) => TapShapeKept(w, s);
    case Reap(overdue, candidates) => SweepShape(w.db, overdue, candidates, s.now);
    case Attempt(session, key, result) =>
      ShapeOfItself(w.db);
      AttemptShape(w.db, key, w.inFlight[FlightKey(session, key)], s.now, result);
    case ClaimBatch(_, batch, lockFor) => ClaimShape(w.db, batch, s.now, lockFor);
    case _ => ProfileShape(w, s);
  }

  lemma ShapeOfItself(db: Tables)
    ensures SameShape(db, db)
  {
  }

  lemma AttemptShape(db: Tables, key: DeliveryKey, f: Flight, now: int, result: SendResult)
    ensures SameShape(db, DeliverOne(db, key, f, now, result))
  {
    hide VerdictFor, SettledRow, MovesOn;
  }

  lemma ClaimShape(db: Tables, batch: set<DeliveryKey>, now: int, lockFor: int)
    ensures SameShape(db, Claim(db, batch, now, lockFor))
  {
    hide ClaimRow;
  }

  lemma ProfileShape(w: World, s: Step)
    requires s.event.AddUser? || s.event.ChangeUser? || s.event.Unblock? || s.event.EditRepeat? || s.event.Crash?
             || s.event.Load?
    ensures SameShape(w.db, Next(w, s).db)
  {
    hide Next, Flights, SameShape;
    NextParts(w, s);
    ShapeOfItself(w.db);
    match s.event
    case AddUser(u, profile) => UsersShape(w.db, u, profile);
    case ChangeUser(u, quiet) => if u in w.db.users { UsersShape(w.db, u, w.db.users[u].(quiet := quiet)); }
    case Unblock(u) => if u in w.db.users { UsersShape(w.db, u, w.db.users[u].(blocked := false)); }
    case EditRepeat(r, snooze, repeatAfter) => RepeatShape(w.db, r, snooze, repeatAfter);
    case _ =>
  }

  lemma UsersShape(db: Tables, u: int, row: User)
    ensures SameShape(db, db.(users := db.users[u := row]))
  {
  }

  lemma RepeatShape(db: Tables, r: int, snooze: int, repeatAfter: Option<int>)
    ensures r in db.reminders ==>
      SameShape(db, db.(reminders := db.reminders[r := db.reminders[r].(snoozeMinutes := snooze,
                                                                        repeatAfterMinutes := repeatAfter)]))
  {
  }

  // ---------------------------------------------------------------------------------------------
  // Steps that add or remove rows
  // ---------------------------------------------------------------------------------------------

  lemma LaterFits(db: Tables, clock: int, now: int)
    requires Fits(db, clock) && clock <= now
    ensures Fits(db, now)
  {
    hide References, Budgeted;
  }

  lemma {:induction false} MomentsOfKeys(keys: set<OccurrenceKey>, reminder: int)
    requires forall k :: k in keys ==> k.reminder == reminder
    ensures |set k | k in keys :: k.scheduledFor| == |keys|
  {
    if keys != {} {
      var k :| k in keys;
      MomentsOfKeys(keys - {k}, reminder);
      var rest := set q | q in keys - {k} :: q.scheduledFor;
      assert (set q | q in keys :: q.scheduledFor) == rest + {k.scheduledFor};
      forall q | q in keys - {k} ensures q.scheduledFor != k.scheduledFor {
        assert q == OccurrenceKey(reminder, q.scheduledFor) && k == OccurrenceKey(reminder, k.scheduledFor);
      }
    }
  }

  function KeysFor(db: Tables, reminder: int): set<OccurrenceKey> {
    set o | o in db.occurrences && o.reminder == reminder
  }

  lemma ScheduledSize(db: Tables, reminder: int)
    ensures |Scheduled(db, reminder)| == |KeysFor(db, reminder)|
  {
    var keys := KeysFor(db, reminder);
    MomentsOfKeys(keys, reminder);
    assert Scheduled(db, reminder) == set k | k in keys :: k.scheduledFor;
  }

  lemma DropShrinks(db: Tables, reminder: int)
    requires reminder in db.reminders
    ensures var after := DropQueued(db, reminder);
      && |Scheduled(after, reminder)| == |Scheduled(db, reminder)| - |Unsent(db, reminder)|
      && forall r :: r != reminder ==> Scheduled(after, r) == Scheduled(db, r)
  {
    hide IsUnsent;
    var after := DropQueued(db, reminder);
    ScheduledSize(db, reminder);
    ScheduledSize(after, reminder);
    assert KeysFor(after, reminder) == KeysFor(db, reminder) - Unsent(db, reminder);
    assert Unsent(db, reminder) <= KeysFor(db, reminder);
    forall r | r != reminder ensures Scheduled(after, r) == Scheduled(db, r) {
      forall t ensures t in Scheduled(after, r) <==> t in Scheduled(db, r) {
        assert t in Scheduled(after, r) <==> OccurrenceKey(r, t) in after.occurrences;
        assert t in Scheduled(db, r) <==> OccurrenceKey(r, t) in db.occurrences;
      }
    }
  }

  lemma DropFits(db: Tables, clock: int, reminder: int)
    requires Fits(db, clock) && reminder in db.reminders
    ensures Fits(DropQueued(db, reminder), clock)
  {
    hide DropQueued, References, Covered, Budgeted;
    DropKeepsReferences(db, reminder);
    DropKeepsCover(db, clock, reminder);
    DropKeepsBudget(db, reminder);
  }

  lemma DropKeepsBudget(db: Tables, reminder: int)
    requires Budgeted(db) && reminder in db.reminders
    ensures Budgeted(DropQueued(db, reminder))
  {
    hide Scheduled, Unsent;
    DropShrinks(db, reminder);
  }

  lemma DropKeepsReferences(db: Tables, reminder: int)
    requires References(db) && reminder in db.reminders
    ensures References(DropQueued(db, reminder))
  {
    hide IsUnsent;
  }

  lemma DropKeepsCover(db: Tables, clock: int, reminder: int)
    requires Covered(db, clock) && reminder in db.reminders
    ensures Covered(DropQueued(db, reminder), clock)
  {
    hide IsUnsent;
  }

  lemma EditedFits(db: Tables, clock: int, reminder: int, row: Reminder)
    requires Fits(db, clock) && reminder in db.reminders
    requires SameTerms(db.reminders[reminder], row) && row.firedCount == db.reminders[reminder].firedCount
    ensures Fits(db.(reminders := db.reminders[reminder := row]), clock)
  {
    hide Fits;
    ShapeKeepsFit(db, db.(reminders := db.reminders[reminder := row]), clock, clock);
  }

  lemma EditFits(w: World, s: Step)
    requires Fits(w.db, s.now) && Legal(w, s) && (s.event.ChangeStatus? || s.event.Reschedule?)
    ensures Fits(Next(w, s).db, s.now)
  {
    hide Fits, DropQueued, FirstFireAt, Flights;
    var r := s.event.reminder;
    if EditableBy(w.db, s.event.owner, r) == Edited {
      var row := if s.event.ChangeStatus? then w.db.reminders[r].(status := s.event.status)
                 else w.db.reminders[r].(schedule := s.event.schedule);
      EditedFits(w.db, s.now, r, row);
      DropFits(w.db.(reminders := w.db.reminders[r := row]), s.now, r);
    }
  }

  lemma SameQueueBudget(a: Tables, b: Tables)
    requires Budgeted(a) && b.occurrences == a.occurrences && b.reminders == a.reminders
    ensures Budgeted(b)
  {
    forall r | r in b.reminders ensures Scheduled(b, r) == Scheduled(a, r) {
      SameScheduled(b, a, r);
    }
    hide Scheduled;
  }

  lemma CreateFits(w: World, s: Step)
    requires Fits(w.db, s.now) && Legal(w, s) && s.event.Create?
    ensures Fits(Next(w, s).db, s.now)
  {
    hide Flights;
    var b, r := Next(w, s).db, s.event.reminder;
    CreateKeepsReferences(w, s);
    hide References;
    assert Scheduled(b, r) == {} by { NoRowsYet(w.db, r); SameScheduled(b, w.db, r); }
    forall q | q in w.db.reminders ensures Scheduled(b, q) == Scheduled(w.db, q) { SameScheduled(b, w.db, q); }
    hide Scheduled;
    CreateKeepsCover(w, s);
  }

  lemma NoRowsYet(db: Tables, r: int)
    requires References(db) && r !in db.reminders
    ensures Scheduled(db, r) == {}
  {
  }

  lemma CreateKeepsReferences(w: World, s: Step)
    requires References(w.db) && Legal(w, s) && s.event.Create?
    ensures References(Next(w, s).db)
  {
    hide Flights;
  }

  lemma CreateKeepsCover(w: World, s: Step)
    requires References(w.db) && Covered(w.db, s.now) && Legal(w, s) && s.event.Create?
    ensures Covered(Next(w, s).db, s.now)
  {
    hide Flights;
  }

  /** Recipients come and go without touching the queue. */
  lemma RecipientsFit(a: Tables, b: Tables, clock: int)
    requires Fits(a, clock) && b == a.(recipients := b.recipients)
    requires forall k :: k in b.recipients ==>
      && k.reminder in a.reminders && k.user in a.users
      && (IsAccepted(b.recipients[k]) ==> k in a.recipients && IsAccepted(a.recipients[k]))
    ensures Fits(b, clock)
  {
    SameQueueBudget(a, b);
    hide Budgeted;
    RecipientsKeepCover(a, b, clock);
    hide Covered;
  }

  lemma RecipientsKeepCover(a: Tables, b: Tables, clock: int)
    requires Covered(a, clock) && b == a.(recipients := b.recipients)
    requires forall k :: k in b.recipients && IsAccepted(b.recipients[k])
                ==> k in a.recipients && IsAccepted(a.recipients[k])
    ensures Covered(b, clock)
  {
  }

  lemma InviteFits(w: World, s: Step)
    requires Fits(w.db, s.now) && Legal(w, s) && (s.event.Invite? || s.event.Decline?)
    ensures Fits(Next(w, s).db, s.now)
  {
    hide Covered, Budgeted, Watchers, Flights;
    RecipientsFit(w.db, Next(w, s).db, s.now);
  }

  /** Deliveries go, but only with the recipient they were for. */
  ghost predicate GoneWithRecipients(a: Tables, b: Tables) {
    && b == a.(deliveries := b.deliveries, recipients := b.recipients)
    && (forall k :: k in b.deliveries ==> k in a.deliveries && b.deliveries[k] == a.deliveries[k])
    && (forall k :: k in b.recipients ==> k in a.recipients && b.recipients[k] == a.recipients[k])
    && (forall k :: k in a.deliveries && k !in b.deliveries
           ==> RecipientKey(k.occurrence.reminder, k.user) !in b.recipients)
  }

  lemma GoneFits(a: Tables, b: Tables, clock: int)
    requires Fits(a, clock) && GoneWithRecipients(a, b)
    ensures Fits(b, clock)
  {
    SameQueueBudget(a, b);
    hide Budgeted;
    GoneKeepsCover(a, b, clock);
    hide Covered;
  }

  lemma GoneKeepsCover(a: Tables, b: Tables, clock: int)
    requires Covered(a, clock) && GoneWithRecipients(a, b)
    ensures Covered(b, clock)
  {
    forall o, r | o in b.occurrences && r in b.recipients && r.reminder == o.reminder
                  && IsAccepted(b.recipients[r]) && clock < b.occurrences[o].fireAt
      ensures DeliveryKey(o, r.user) in b.deliveries
    {
      assert DeliveryKey(o, r.user) in a.deliveries;
      assert r == RecipientKey(o.reminder, r.user);
    }
  }

  lemma LeaveFits(w: World, s: Step)
    requires Fits(w.db, s.now) && Legal(w, s) && s.event.LeaveReminder?
    ensures Fits(Next(w, s).db, s.now)
  {
    hide Fits, GoneWithRecipients, Leave, Flights;
    LeaveTakesOwn(w.db, s.event.user, s.event.reminder);
    GoneFits(w.db, Next(w, s).db, s.now);
  }

  lemma LeaveTakesOwn(db: Tables, user: int, reminder: int)
    requires RecipientKey(reminder, user) in db.recipients
             ==> db.recipients[RecipientKey(reminder, user)].role == Watcher
    ensures GoneWithRecipients(db, Leave(db, user, reminder))
  {
  }

  lemma AcceptKeepsCover(a: Tables, b: Tables, clock: int, user: int, reminder: int)
    requires Covered(a, clock) && AheadIsPending(a, clock) && RecipientKey(reminder, user) in a.recipients
    requires b == a.(recipients := a.recipients[RecipientKey(reminder, user) := Recipient(Watcher, Some(clock))],
                     deliveries := InsertDeliveries(a.deliveries, a.occurrences, Upcoming(a, reminder, clock), {user}))
    ensures Covered(b, clock)
  {
    forall o, r | o in b.occurrences && r in b.recipients && r.reminder == o.reminder
                  && IsAccepted(b.recipients[r]) && clock < b.occurrences[o].fireAt
      ensures DeliveryKey(o, r.user) in b.deliveries
    {
      if r == RecipientKey(reminder, user) {
        assert o in Upcoming(a, reminder, clock);
      }
    }
  }

  lemma InsertedReferences(a: Tables, b: Tables, keys: set<OccurrenceKey>, users: set<int>)
    requires References(a) && keys <= b.occurrences.Keys && users <= a.users.Keys && b.users == a.users
    requires forall o :: o in a.occurrences ==> o in b.occurrences
    requires b.deliveries == InsertDeliveries(a.deliveries, b.occurrences, keys, users)
    ensures forall k :: k in b.deliveries ==> k.occurrence in b.occurrences && k.user in b.users
  {
  }

  lemma AcceptedFits(a: Tables, b: Tables, clock: int, user: int, reminder: int)
    requires Fits(a, clock) && AheadIsPending(a, clock) && RecipientKey(reminder, user) in a.recipients
    requires b == a.(recipients := a.recipients[RecipientKey(reminder, user) := Recipient(Watcher, Some(clock))],
                     deliveries := InsertDeliveries(a.deliveries, a.occurrences, Upcoming(a, reminder, clock), {user}))
    ensures Fits(b, clock)
  {
    hide Covered, InsertDeliveries, Budgeted, Upcoming;
    UpcomingExist(a, reminder, clock);
    InsertedReferences(a, b, Upcoming(a, reminder, clock), {user});
    AcceptKeepsCover(a, b, clock, user, reminder);
    SameQueueBudget(a, b);
    AcceptedReferences(a, b, user, reminder, Recipient(Watcher, Some(clock)));
  }

  lemma AcceptedReferences(a: Tables, b: Tables, user: int, reminder: int, row: Recipient)
    requires References(a) && b.users == a.users && b.reminders == a.reminders && b.occurrences == a.occurrences
    requires RecipientKey(reminder, user) in a.recipients
    requires b.recipients == a.recipients[RecipientKey(reminder, user) := row]
    requires forall k :: k in b.deliveries ==> k.occurrence in b.occurrences && k.user in b.users
    ensures References(b)
  {
  }

  lemma AcceptFits(w: World, s: Step)
    requires Fits(w.db, s.now) && AheadIsPending(w.db, s.now) && Legal(w, s) && s.event.AcceptInvitation?
    ensures Fits(Next(w, s).db, s.now)
  {
    hide Fits, AheadIsPending, InsertDeliveries, Upcoming, Flights;
    var key := RecipientKey(s.event.reminder, s.event.user);
    if key in w.db.recipients && w.db.recipients[key] == Recipient(Watcher, None) {
      AcceptedFits(w.db, Next(w, s).db, s.now, s.event.user, s.event.reminder);
    } else {
      assert Next(w, s).db == w.db;
    }
  }

  lemma InsertedScheduled(db: Tables, after: Tables, reminder: int, moments: seq<int>, quiet: Quiet, ttl: nat)
    requires after.occurrences == InsertOccurrences(db.occurrences, reminder, moments, quiet, ttl)
    ensures Scheduled(after, reminder) == Scheduled(db, reminder) + set t | t in moments
    ensures forall r :: r != reminder ==> Scheduled(after, r) == Scheduled(db, r)
  {
    hide FreshOccurrence;
    forall r, t ensures t in Scheduled(after, r) <==> t in Scheduled(db, r) || (r == reminder && t in moments) {
      assert t in Scheduled(after, r) <==> OccurrenceKey(r, t) in after.occurrences;
      assert t in Scheduled(db, r) <==> OccurrenceKey(r, t) in db.occurrences;
      assert OccurrenceKey(r, t) in KeysOf(reminder, moments) <==> r == reminder && t in moments;
    }
  }

  lemma InsertedRows(rows: map<OccurrenceKey, Occurrence>, reminder: int, moments: seq<int>, quiet: Quiet, ttl: nat)
    ensures var after := InsertOccurrences(rows, reminder, moments, quiet, ttl);
      && (forall o :: o in rows ==> o in after && after[o] == rows[o])
      && KeysOf(reminder, moments) <= after.Keys
      && (forall o :: o in after && o !in rows ==> o in KeysOf(reminder, moments) && o.reminder == reminder)
  {
    hide FreshOccurrence;
  }

  lemma PlanKeepsCover(a: Tables, b: Tables, clock: int, reminder: int, moments: seq<int>)
    requires Covered(a, clock) && b.recipients == a.recipients
    requires KeysOf(reminder, moments) <= b.occurrences.Keys
    requires b.deliveries
             == InsertDeliveries(a.deliveries, b.occurrences, KeysOf(reminder, moments), AcceptedUsers(a, reminder))
    requires forall o :: o in a.occurrences ==> o in b.occurrences && b.occurrences[o] == a.occurrences[o]
    requires forall o :: o in b.occurrences && o !in a.occurrences ==> o in KeysOf(reminder, moments)
    ensures Covered(b, clock)
  {
    forall o, r | o in b.occurrences && r in b.recipients && r.reminder == o.reminder
                  && IsAccepted(b.recipients[r]) && clock < b.occurrences[o].fireAt
      ensures DeliveryKey(o, r.user) in b.deliveries
    {
      if o in a.occurrences {
        assert DeliveryKey(o, r.user) in a.deliveries;
      } else {
        assert r.user in AcceptedUsers(a, reminder);
      }
    }
  }

  /** The budget bounds what a cycle inserts, whatever is already there. */
  lemma CycleKeepsBudget(p: Plan, horizonEnd: int)
    requires p.maxOccurrences.Some? ==> |p.done| <= p.maxOccurrences.value
    ensures p.maxOccurrences.Some? ==> |p.Cycle(horizonEnd).done| <= p.maxOccurrences.value
  {
    hide Expansion, Settle;
    var moments := p.Moments(horizonEnd);
    var w := p.Window(horizonEnd);
    ExpansionSize(p.schedule, p.zone, w.after, w.until, w.limit);
    MembersAtMost(moments);
    assert p.Cycle(horizonEnd).done == p.done + set t | t in moments;
    UnionSize(p.done, set t | t in moments);
  }

  lemma PlanKeepsBudget(a: Tables, b: Tables, reminder: int, horizonEnd: int, quiet: Quiet, ttl: nat)
    requires Budgeted(a) && reminder in a.reminders && IsMaterialized(a, b, reminder, horizonEnd, quiet, ttl)
    ensures Budgeted(b)
  {
    var p := PlanOf(a, reminder);
    assert forall r :: r in b.reminders ==> r in a.reminders.Keys;
    hide Scheduled, Expansion, Settle, InsertOccurrences, InsertDeliveries, AcceptedUsers, KeysOf;
    InsertedScheduled(a, b, reminder, p.Moments(horizonEnd), quiet, ttl);
    CycleKeepsBudget(p, horizonEnd);
    CycleShape(p, horizonEnd);
    hide Plan.Cycle, Plan.Moments;
  }

  lemma PlanKeepsReferences(a: Tables, b: Tables, reminder: int, horizonEnd: int, quiet: Quiet, ttl: nat)
    requires References(a) && reminder in a.reminders && IsMaterialized(a, b, reminder, horizonEnd, quiet, ttl)
    requires forall k :: k in b.deliveries ==> k.occurrence in b.occurrences && k.user in b.users
    requires forall o :: o in b.occurrences && o !in a.occurrences ==> o.reminder == reminder
    ensures References(b)
  {
    hide InsertDeliveries, InsertOccurrences, AcceptedUsers, KeysOf, Plan.Cycle, Plan.Moments;
    assert b.users == a.users && b.recipients == a.recipients && b.reminders.Keys == a.reminders.Keys;
    assert forall o :: o in b.occurrences && o in a.occurrences ==> o.reminder in a.reminders;
    assert forall r :: r in b.reminders ==> r in a.reminders.Keys && b.reminders[r].owner == a.reminders[r].owner;
    hide IsMaterialized;
    SameRemindersReferences(a, b);
  }

  lemma SameRemindersReferences(a: Tables, b: Tables)
    requires References(a) && b.users == a.users && b.recipients == a.recipients && b.reminders.Keys == a.reminders.Keys
    requires forall k :: k in b.deliveries ==> k.occurrence in b.occurrences && k.user in b.users
    requires forall o :: o in b.occurrences ==> o.reminder in a.reminders
    requires forall r :: r in b.reminders ==> r in a.reminders && b.reminders[r].owner == a.reminders[r].owner
    ensures References(b)
  {
    assert forall r :: r in a.reminders ==> r in b.reminders.Keys;
  }

  lemma MaterializedFits(a: Tables, b: Tables, clock: int, reminder: int, horizonEnd: int, quiet: Quiet, ttl: nat)
    requires Fits(a, clock) && reminder in a.reminders && IsMaterialized(a, b, reminder, horizonEnd, quiet, ttl)
    ensures Fits(b, clock)
  {
    var moments := PlanOf(a, reminder).Moments(horizonEnd);
    AcceptedExist(a, reminder);
    hide References, Covered, Budgeted, InsertDeliveries, InsertOccurrences, AcceptedUsers, KeysOf, Plan.Cycle,
         Plan.Moments;
    InsertedRows(a.occurrences, reminder, moments, quiet, ttl);
    InsertedReferences(a, b, KeysOf(reminder, moments), AcceptedUsers(a, reminder));
    PlanKeepsReferences(a, b, reminder, horizonEnd, quiet, ttl);
    PlanKeepsCover(a, b, clock, reminder, moments);
    PlanKeepsBudget(a, b, reminder, horizonEnd, quiet, ttl);
  }

  lemma MaterializeFits(w: World, s: Step)
    requires Fits(w.db, s.now) && Legal(w, s) && s.event.Materialize?
    ensures Fits(Next(w, s).db, s.now)
  {
    var r := s.event.reminder;
    assert w.db.reminders[r].owner in w.db.users;
    hide Fits, MaterializeOne, IsMaterialized, Flights;
    MaterializeShape(w.db, r, s.event.horizonEnd, s.event.ttl);
    MaterializedFits(w.db, Next(w, s).db, s.now, r, s.event.horizonEnd, w.db.users[w.db.reminders[r].owner].quiet,
                     s.event.ttl);
  }

  // ---------------------------------------------------------------------------------------------
  // Every step
  // ---------------------------------------------------------------------------------------------

  lemma AheadPending(w: World, now: int)
    requires OccurrencesOk(w) && w.clock <= now
    ensures AheadIsPending(w.db, now)
  {
  }

  lemma FitStep(w: World, s: Step)
    requires Fits(w.db, w.clock) && OccurrencesOk(w) && Legal(w, s)
    ensures Fits(Next(w, s).db, s.now)
  {
    LaterFits(w.db, w.clock, s.now);
    AheadPending(w, s.now);
    hide Fits, Next, AheadIsPending, OccurrencesOk, SameShape;
    match s.event
    case Create(_, _) => CreateFits(w, s);
    case ChangeStatus(_, _, _) => EditFits(w, s);
    case Reschedule(_, _, _) => EditFits(w, s);
    case Invite(_, _) => InviteFits(w, s);
    case Decline(_, _) => InviteFits(w, s);
    case AcceptInvitation(_, _) => AcceptFits(w, s);
    case LeaveReminder(_, _) => LeaveFits(w, s);
    case Materialize(_, _, _) => MaterializeFits(w, s);
    case _ =>
      RewritingShape(w, s);
      ShapeKeepsFit(w.db, Next(w, s).db, s.now, s.now);
  }

  /** Every step the program takes keeps the invariant, whatever the timing of its workers. */
  lemma StepKeepsInv(w: World, s: Step)
    requires Inv(w) && Legal(w, s)
    ensures Inv(Next(w, s))
  {
    hide RowsOk, OccurrencesOk, FlightsOk, Covered, Budgeted, Legal, Next, References;
    FitStep(w, s);
    ClockOf(w, s);
    RowsStep(w, s);
    OccurrencesStep(w, s);
    FlightsStep(w, s);
  }

  lemma EmptyIsOk(w: World)
    requires IsEmpty(w)
    ensures Inv(w)
  {
  }

  lemma {:induction false} RunKeepsInv(ws: seq<World>, steps: seq<Step>, i: nat)
    requires IsRun(ws, steps) && Inv(ws[0]) && i < |ws|
    ensures Inv(ws[i])
  {
    hide Inv, Legal, Next;
    if i > 0 {
      RunKeepsInv(ws, steps, i - 1);
      StepKeepsInv(ws[i - 1], steps[i - 1]);
      assert ws[i - 1 + 1] == Next(ws[i - 1], steps[i - 1]);
    }
  }

  lemma ReachesKeepsInv(w: World, v: World)
    requires Reaches(w, v) && Inv(w)
    ensures Inv(v)
  {
    hide Inv;
    var ws, steps :| IsRun(ws, steps) && ws[0] == w && ws[|ws| - 1] == v;
    RunKeepsInv(ws, steps, |steps|);
  }
}
