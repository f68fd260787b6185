/** Where the program falls short of what it says of itself, and exactly when it does not. */
module Findings {
  import opened Planning
  import opened QuietHours
  import opened Contracts
  import opened Reactions
  import opened Store
  import opened Runs
  import opened Steps
  import opened Invariants
  import opened Guarantees
  import opened Journal

  // ---------------------------------------------------------------------------------------------
  // An answer given while the row is being sent
  // ---------------------------------------------------------------------------------------------

  predicate IsAnswer(s: DeliveryStatus) {
    s in {Done, Skipped}
  }

  ghost predicate IsAnswered(w: World, key: DeliveryKey) {
    key in w.db.deliveries && IsAnswer(w.db.deliveries[key].status)
  }

  /** Nothing the program does from here on changes the answer. */
  ghost predicate AnswerHolds(w: World, key: DeliveryKey)
    requires key in w.db.deliveries
  {
    forall v :: Reaches(w, v) ==> key in v.db.deliveries && v.db.deliveries[key].status == w.db.deliveries[key].status
  }

  lemma AnsweredRow(w: World, s: Step, key: DeliveryKey, e: Delivery)
    requires Legal(w, s) && IsAnswered(w, key) && !Flying(w, key)
    requires RowChange(w, s, key, w.db.deliveries[key], e)
    ensures e.status == w.db.deliveries[key].status
  {
    hide VerdictFor, GoesOut, DecideReaction, Answered;
    if s.event.Attempt? && s.event.key == key {
      assert FlightKey(s.event.session, key) in w.inFlight;
    }
  }

  lemma AnswerStep(w: World, s: Step, key: DeliveryKey)
    requires Legal(w, s) && IsAnswered(w, key) && !Flying(w, key)
    ensures key in Next(w, s).db.deliveries && Next(w, s).db.deliveries[key].status == w.db.deliveries[key].status
    ensures !Flying(Next(w, s), key)
  {
    EveryRowSteps(w, s, key);
    AnsweredStays(w, s, key);
    hide Next, RowChange;
    if key in Next(w, s).db.deliveries {
      assert RowChange(w, s, key, w.db.deliveries[key], Next(w, s).db.deliveries[key]);
      AnsweredRow(w, s, key, Next(w, s).db.deliveries[key]);
    }
  }

  /** An answered row is nothing a worker would claim. */
  lemma AnsweredStays(w: World, s: Step, key: DeliveryKey)
    requires Legal(w, s) && IsAnswered(w, key) && !Flying(w, key)
    ensures !Flying(Next(w, s), key)
  {
    hide Effect, Refreshed, ViewOf;
    if session :| FlightKey(session, key) in Next(w, s).inFlight && Next(w, s).inFlight[FlightKey(session, key)].row {
      FlightStep(w, s, FlightKey(session, key));
    }
  }

  lemma {:induction false} AnswerRun(ws: seq<World>, steps: seq<Step>, j: nat, key: DeliveryKey)
    requires IsRun(ws, steps) && j < |ws| && IsAnswered(ws[0], key) && !Flying(ws[0], key)
    ensures key in ws[j].db.deliveries && ws[j].db.deliveries[key].status == ws[0].db.deliveries[key].status
    ensures !Flying(ws[j], key)
  {
    hide Legal, Next, Flying;
    if j > 0 {
      AnswerRun(ws, steps, j - 1, key);
      assert ws[j - 1 + 1] == Next(ws[j - 1], steps[j - 1]);
      AnswerStep(ws[j - 1], steps[j - 1], key);
    }
  }

  /** The session that holds the row reads, if it has not, and writes its verdict. */
  lemma LateVerdict(w: World, f: FlightKey) returns (v: World)
    requires IsAnswered(w, f.delivery) && f in w.inFlight && w.inFlight[f].row
    ensures Reaches(w, v) && f.delivery in v.db.deliveries && !IsAnswer(v.db.deliveries[f.delivery].status)
  {
    ReachesItself(w);
    hide Reaches;
    var load := Step(w.clock, Load(f.session));
    LoadReads(w, load, f);
    ReachesNext(w, w, load);
    var read := Next(w, load);
    var attempt := Step(w.clock, Attempt(f.session, f.delivery, Accepted));
    VerdictWrites(read, attempt, f);
    ReachesNext(w, read, attempt);
    v := Next(read, attempt);
  }

  lemma LoadReads(w: World, s: Step, f: FlightKey)
    requires s == Step(w.clock, Load(f.session)) && f in w.inFlight && w.inFlight[f].row
    requires f.delivery in w.db.deliveries
    ensures Legal(w, s) && Next(w, s).db == w.db && Next(w, s).clock == w.clock
    ensures f in Next(w, s).inFlight && Next(w, s).inFlight[f].row && Next(w, s).inFlight[f].view != Unread
  {
  }

  lemma VerdictWrites(w: World, s: Step, f: FlightKey)
    requires s == Step(w.clock, Attempt(f.session, f.delivery, Accepted)) && f.delivery in w.db.deliveries
    requires f in w.inFlight && w.inFlight[f].row && w.inFlight[f].view != Unread
    ensures Legal(w, s)
    ensures f.delivery in Next(w, s).db.deliveries && !IsAnswer(Next(w, s).db.deliveries[f.delivery].status)
  {
    hide Flights, MovesOn, AbortFor;
  }

  /** An answer lasts exactly when nobody is sending the row: the worker that comes back writes its
      verdict over whatever is there. */
  lemma AnswerHoldsExactly(w: World, key: DeliveryKey)
    requires IsAnswered(w, key)
    ensures AnswerHolds(w, key) <==> !Flying(w, key)
  {
    if session :| FlightKey(session, key) in w.inFlight && w.inFlight[FlightKey(session, key)].row {
      var v := LateVerdict(w, FlightKey(session, key));
    } else {
      hide Legal, Next;
      forall v | Reaches(w, v)
          ensures key in v.db.deliveries && v.db.deliveries[key].status == w.db.deliveries[key].status {
        var ws, steps :| IsRun(ws, steps) && ws[0] == w && ws[|ws| - 1] == v;
        AnswerRun(ws, steps, |ws| - 1, key);
      }
    }
  }

  lemma TapAnswers(w: World, s: Step)
    requires Legal(w, s) && s.event.Tap? && s.event.kind != SnoozeAction
    requires React(w.db, s.event.key, s.event.user, s.event.kind, s.now).1 == Applied
    ensures IsAnswered(Next(w, s), s.event.key) && s.event.key in w.db.deliveries
    ensures Flying(Next(w, s), s.event.key) <==> Flying(w, s.event.key)
  {
    var key, v := s.event.key, Next(w, s);
    var r := TapShape(w.db, key, s.event.user, s.event.kind, s.now);
    TapTerms(w.db, key, s.event.user, s.event.kind, s.now);
    hide ReactRow, AllTerminal, RollUp;
    assert v.db == Answered(w.db, key, s.event.kind, r, s.now);
    AnswerWritten(w.db.deliveries[key], s.event.kind, r, s.now);
    hide React, Answered;
    assert v.db.deliveries.Keys == w.db.deliveries.Keys;
    forall session ensures FlightKey(session, key) in v.inFlight && v.inFlight[FlightKey(session, key)].row
                      <==> FlightKey(session, key) in w.inFlight && w.inFlight[FlightKey(session, key)].row
    {
    }
  }

  lemma AnswerWritten(d: Delivery, kind: ActionKind, r: Reaction, now: int)
    requires Writes(kind, r, now) && kind != SnoozeAction
    ensures IsAnswer(ReactRow(d, kind, r, now).status)
  {
  }

  /** So a tap on `done` or `skip` sticks exactly when it does not land while the row is being sent. */
  lemma AnswerSticksExactly(w: World, s: Step)
    requires Legal(w, s) && s.event.Tap? && s.event.kind != SnoozeAction
    requires React(w.db, s.event.key, s.event.user, s.event.kind, s.now).1 == Applied
    ensures IsAnswered(Next(w, s), s.event.key)
    ensures AnswerHolds(Next(w, s), s.event.key) <==> !Flying(w, s.event.key)
  {
    hide Legal, Next, React, Flying, AnswerHolds;
    TapAnswers(w, s);
    AnswerHoldsExactly(Next(w, s), s.event.key);
  }

  /** `react` could tell: after an orderly run without crashes the row is being sent exactly when it is
      locked, so the answer sticks exactly when `locked_until` was empty. */
  lemma UnlockedAnswerSticks(ws: seq<World>, steps: seq<Step>, i: nat, s: Step)
    requires IsOrderlyRun(ws, steps) && IsEmpty(ws[0]) && i < |ws|
    requires forall j :: 0 <= j < i ==> !steps[j].event.Crash?
    requires Legal(ws[i], s) && s.event.Tap? && s.event.kind != SnoozeAction
    requires React(ws[i].db, s.event.key, s.event.user, s.event.kind, s.now).1 == Applied
    ensures s.event.key in ws[i].db.deliveries && IsAnswered(Next(ws[i], s), s.event.key)
    ensures AnswerHolds(Next(ws[i], s), s.event.key) <==> ws[i].db.deliveries[s.event.key].lockedUntil.None?
  {
    hide Legal, Next, React, Flying, AnswerHolds, IsOrderlyRun;
    TapAnswers(ws[i], s);
    AnswerSticksExactly(ws[i], s);
    LockedIsFlying(ws, steps, i);
    if Flying(ws[i], s.event.key) { FlyingIsLocked(ws, steps, i, s.event.key); }
  }

  // ---------------------------------------------------------------------------------------------
  // Leaving without being a watcher
  // ---------------------------------------------------------------------------------------------

  predicate HasAhead(db: Tables, reminder: int, clock: int) {
    exists o :: o in db.occurrences && o.reminder == reminder && clock < db.occurrences[o].fireAt
  }

  /** `leave` takes back the rows of whoever it is called for, but removes only watchers. Coverage
      survives it exactly when it is not called for the owner of a reminder with something ahead. */
  lemma LeaveKeepsCoverExactly(w: World, user: int, reminder: int)
    requires Inv(w)
    ensures Covered(Leave(w.db, user, reminder), w.clock)
            <==> !(RecipientKey(reminder, user) in w.db.recipients
                   && w.db.recipients[RecipientKey(reminder, user)].role == Owner
                   && HasAhead(w.db, reminder, w.clock))
  {
    var r := RecipientKey(reminder, user);
    hide Leave, RowsOk, OccurrencesOk, FlightsOk, References, Budgeted, Covered;
    if r in w.db.recipients && w.db.recipients[r].role == Owner {
      if o :| o in w.db.occurrences && o.reminder == reminder && w.clock < w.db.occurrences[o].fireAt {
        OwnerLosesRow(w, user, o);
      } else {
        LeaveKeepsRest(w.db, w.clock, user, reminder);
      }
    } else {
      LeaveKeepsRest(w.db, w.clock, user, reminder);
    }
  }

  lemma OwnerLosesRow(w: World, user: int, o: OccurrenceKey)
    requires Inv(w) && o in w.db.occurrences && w.clock < w.db.occurrences[o].fireAt
    requires var r := RecipientKey(o.reminder, user); r in w.db.recipients && w.db.recipients[r].role == Owner
    ensures !Covered(Leave(w.db, user, o.reminder), w.clock)
  {
    hide References, OccurrencesOk, Budgeted, FlightsOk;
    var k, r := DeliveryKey(o, user), RecipientKey(o.reminder, user);
    assert k in w.db.deliveries;
    assert RowOk(w.clock, w.db.deliveries[k], w.db.occurrences[o]);
    assert r in Leave(w.db, user, o.reminder).recipients;
  }

  lemma LeaveKeepsRest(db: Tables, clock: int, user: int, reminder: int)
    requires Covered(db, clock)
    requires !(RecipientKey(reminder, user) in db.recipients
               && db.recipients[RecipientKey(reminder, user)].role == Owner)
          || !HasAhead(db, reminder, clock)
    ensures Covered(Leave(db, user, reminder), clock)
  {
    var b := Leave(db, user, reminder);
    forall o, r | o in b.occurrences && r in b.recipients && r.reminder == o.reminder
                  && IsAccepted(b.recipients[r]) && clock < b.occurrences[o].fireAt
      ensures DeliveryKey(o, r.user) in b.deliveries
    {
      assert DeliveryKey(o, r.user) in db.deliveries;
      assert r == RecipientKey(r.reminder, r.user);
    }
  }

  // ---------------------------------------------------------------------------------------------
  // Closed occurrences whose deliveries are not all settled
  // ---------------------------------------------------------------------------------------------

  /** An answered occurrence has only settled deliveries. */
  ghost predicate SettledOnceAnswered(db: Tables) {
    forall k :: k in db.deliveries && k.occurrence in db.occurrences
        && IsAnsweredStatus(db.occurrences[k.occurrence].status)
      ==> IsTerminal(db.deliveries[k].status)
  }

  /** The cycle comes back to an occurrence that is answered already, for somebody who joined since. */
  ghost predicate ComesBackFor(db: Tables, reminder: int, horizonEnd: int, o: OccurrenceKey, user: int)
    requires reminder in db.reminders
  {
    && o in KeysOf(reminder, PlanOf(db, reminder).Moments(horizonEnd)) && user in AcceptedUsers(db, reminder)
    && o in db.occurrences && IsAnsweredStatus(db.occurrences[o].status)
    && DeliveryKey(o, user) !in db.deliveries
  }

  /** The planner leaves every answered occurrence settled exactly when it does not come back to one
      for a recipient without a row. It can after a pause or an edit, which restart the plan. */
  lemma ReplanSettlesExactly(db: Tables, reminder: int, horizonEnd: int, ttl: nat)
    requires reminder in db.reminders && db.reminders[reminder].owner in db.users && SettledOnceAnswered(db)
    ensures SettledOnceAnswered(MaterializeOne(db, reminder, horizonEnd, ttl))
            <==> !exists o, user :: ComesBackFor(db, reminder, horizonEnd, o, user)
  {
    var after, quiet := MaterializeOne(db, reminder, horizonEnd, ttl), db.users[db.reminders[reminder].owner].quiet;
    hide MaterializeOne, SettledOnceAnswered, ComesBackFor, IsMaterialized;
    MaterializeShape(db, reminder, horizonEnd, ttl);
    if o, user :| ComesBackFor(db, reminder, horizonEnd, o, user) {
      ComesBackPending(db, after, reminder, horizonEnd, quiet, ttl, o, user);
    } else {
      NobodyComesBack(db, after, reminder, horizonEnd, quiet, ttl);
    }
  }

  lemma ComesBackPending(db: Tables, after: Tables, reminder: int, horizonEnd: int, quiet: Quiet, ttl: nat,
                         o: OccurrenceKey, user: int)
    requires reminder in db.reminders && IsMaterialized(db, after, reminder, horizonEnd, quiet, ttl)
    requires ComesBackFor(db, reminder, horizonEnd, o, user)
    ensures !SettledOnceAnswered(after)
  {
    hide AcceptedUsers, Plan.Moments, Plan.Cycle, KeysOf, FreshOccurrence;
    var k := DeliveryKey(o, user);
    assert k in after.deliveries && after.deliveries[k].status == Pending && after.occurrences[o] == db.occurrences[o];
  }

  lemma NobodyComesBack(db: Tables, after: Tables, reminder: int, horizonEnd: int, quiet: Quiet, ttl: nat)
    requires reminder in db.reminders && IsMaterialized(db, after, reminder, horizonEnd, quiet, ttl)
    requires SettledOnceAnswered(db)
    requires !exists o, user :: ComesBackFor(db, reminder, horizonEnd, o, user)
    ensures SettledOnceAnswered(after)
  {
    hide AcceptedUsers, Plan.Moments, Plan.Cycle, KeysOf, Shift;
    forall k | k in after.deliveries && k.occurrence in after.occurrences
        && IsAnsweredStatus(after.occurrences[k.occurrence].status)
      ensures IsTerminal(after.deliveries[k].status)
    {
      assert !ComesBackFor(db, reminder, horizonEnd, k.occurrence, k.user);
    }
  }
}
