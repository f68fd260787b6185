/** Attempts, repeats and messages of a delivery over every run. */
module Attempts {
  import opened Planning
  import opened QuietHours
  import opened Contracts
  import opened Retry
  import opened Sweeping
  import opened Store
  import opened Runs
  import opened Steps
  import opened Invariants
  import opened Guarantees

  // ---------------------------------------------------------------------------------------------
  // Attempts
  // ---------------------------------------------------------------------------------------------

  /** The step settles the row that is in the tables. */
  predicate SettlesRow(w: World, s: Step, k: DeliveryKey) {
    && s.event.Attempt? && s.event.key == k && FlightKey(s.event.session, k) in w.inFlight
    && w.inFlight[FlightKey(s.event.session, k)].row
  }

  /** An attempt that reached the network and came back with a transient error. */
  predicate IsFault(w: World, s: Step, k: DeliveryKey) {
    && SettlesRow(w, s, k) && AbortFor(w.inFlight[FlightKey(s.event.session, k)].view).None?
    && s.event.result.Refused? && s.event.result.error == Transient
  }

  predicate IsSuccess(w: World, s: Step, k: DeliveryKey) {
    SettlesRow(w, s, k) && GoesOut(w.inFlight[FlightKey(s.event.session, k)], s.event.result)
  }

  /** Transient failures of a delivery since its last success, or since its row was inserted. */
  ghost function Faults(ws: seq<World>, steps: seq<Step>, i: nat, k: DeliveryKey): nat
    requires i <= |steps| <= |ws|
  {
    if i == 0 then 0
    else
      var w, s := ws[i - 1], steps[i - 1];
      if k !in w.db.deliveries || IsSuccess(w, s, k) then 0
      else Faults(ws, steps, i - 1, k) + if IsFault(w, s, k) then 1 else 0
  }

  /** The counter is the number of faults, plus the claim that is still in the air. */
  ghost predicate Counted(w: World, k: DeliveryKey, faults: nat) {
    k in w.db.deliveries && !IsTerminal(w.db.deliveries[k].status) ==>
      && w.db.deliveries[k].attempts == faults + (if Flying(w, k) then 1 else 0)
      && faults < MAX_ATTEMPTS
  }

  /** A row takes off with its claim and lands with its verdict. */
  lemma FlyingStep(w: World, s: Step, k: DeliveryKey)
    requires FlightsLeased(w) && OneFlightEach(w) && Legal(w, s) && Orderly(w, s) && !s.event.Crash?
    requires k in w.db.deliveries && k in Next(w, s).db.deliveries
    ensures s.event.ClaimBatch? && k in s.event.batch ==> !Flying(w, k) && Flying(Next(w, s), k)
    ensures SettlesRow(w, s, k) ==> Flying(w, k) && !Flying(Next(w, s), k)
    ensures !(s.event.ClaimBatch? && k in s.event.batch) && !SettlesRow(w, s, k)
            ==> (Flying(Next(w, s), k) <==> Flying(w, k))
  {
    hide Effect, Refreshed, ViewOf;
    if session :| FlightKey(session, k) in Next(w, s).inFlight && Next(w, s).inFlight[FlightKey(session, k)].row {
      FlightStep(w, s, FlightKey(session, k));
    }
    if session :| FlightKey(session, k) in w.inFlight && w.inFlight[FlightKey(session, k)].row {
      NotClaimed(w, s, FlightKey(session, k));
    }
    hide Next;
    if s.event.ClaimBatch? && k in s.event.batch {
      NewlyFlies(w, s, k);
    } else if Flying(w, k) && !SettlesRow(w, s, k) {
      StillFlies(w, s, k);
    }
  }

  lemma CountedRow(w: World, s: Step, k: DeliveryKey, faults: nat, e: Delivery)
    requires FlightsLeased(w) && Legal(w, s) && Orderly(w, s) && k in w.db.deliveries
    requires RowChange(w, s, k, w.db.deliveries[k], e)
    requires Counted(w, k, faults) && (SettlesRow(w, s, k) ==> Flying(w, k))
    requires s.event.ClaimBatch? && k in s.event.batch ==> !Flying(w, k)
    ensures !IsTerminal(e.status) ==>
      var f := if IsSuccess(w, s, k) then 0 else faults + if IsFault(w, s, k) then 1 else 0;
      var flies := (Flying(w, k) && !SettlesRow(w, s, k)) || (s.event.ClaimBatch? && k in s.event.batch);
      e.attempts == f + (if flies then 1 else 0) && f < MAX_ATTEMPTS
  {
    if s.event.Tap? && React(w.db, s.event.key, s.event.user, s.event.kind, s.now).1 == Applied {
      var _ := TapShape(w.db, s.event.key, s.event.user, s.event.kind, s.now);
    }
    hide React, NextAttempt, Flying;
    if SettlesRow(w, s, k) {
      var own := FlightKey(s.event.session, k);
      assert Leased(w.clock, w.db.deliveries[k], w.inFlight[own]);
      FaultOrNot(w, s, k, faults, e);
    }
    hide VerdictFor, GoesOut;
  }

  lemma FaultOrNot(w: World, s: Step, k: DeliveryKey, faults: nat, e: Delivery)
    requires SettlesRow(w, s, k) && k in w.db.deliveries
    requires var flight := w.inFlight[FlightKey(s.event.session, k)];
      && e == SettledRow(w.db.deliveries[k], flight, s.now, s.event.result)
      && flight.attempts == faults + 1 && faults < MAX_ATTEMPTS
    ensures !IsTerminal(e.status) ==>
      e.attempts == (if IsSuccess(w, s, k) then 0 else faults + if IsFault(w, s, k) then 1 else 0) < MAX_ATTEMPTS
  {
  }

  lemma CountedStep(w: World, s: Step, k: DeliveryKey, faults: nat)
    requires Queued(w) && Legal(w, s) && Orderly(w, s) && !s.event.Crash? && Counted(w, k, faults)
    ensures Counted(Next(w, s), k,
                    if k !in w.db.deliveries || IsSuccess(w, s, k) then 0 else faults + if IsFault(w, s, k) then 1
                      else 0)
  {
    hide RowChange, IsFault, IsSuccess, SettlesRow, Legal, Orderly, Flying, Next, RowsAnswer;
    EveryRowSteps(w, s, k);
    if k in Next(w, s).db.deliveries {
      if k in w.db.deliveries {
        FlyingStep(w, s, k);
        CountedRow(w, s, k, faults, Next(w, s).db.deliveries[k]);
      } else {
        NotFlyingYet(w, s, k);
      }
    }
  }

  lemma NotFlyingYet(w: World, s: Step, k: DeliveryKey)
    requires FlightsLeased(w) && Legal(w, s) && k !in w.db.deliveries
    ensures !Flying(Next(w, s), k)
  {
    hide Effect, Refreshed, ViewOf;
    if session :| FlightKey(session, k) in Next(w, s).inFlight && Next(w, s).inFlight[FlightKey(session, k)].row {
      FlightStep(w, s, FlightKey(session, k));
    }
  }

  /** While no worker crashes, the counter of a row that is neither leased nor settled is exactly the
      number of transient failures since its last success, and below the limit: flood control and
      aborts cost nothing. */
  lemma {:induction false} CounterIsFaults(ws: seq<World>, steps: seq<Step>, i: nat, k: DeliveryKey)
    requires IsOrderlyRun(ws, steps) && IsEmpty(ws[0]) && i < |ws|
    requires forall j :: 0 <= j < i ==> !steps[j].event.Crash?
    ensures Counted(ws[i], k, Faults(ws, steps, i, k))
  {
    hide Queued, Legal, Orderly, Next, IsFault, IsSuccess, Flying;
    if i > 0 {
      CounterIsFaults(ws, steps, i - 1, k);
      EmptyIsQueued(ws[0]);
      AlwaysQueued(ws, steps, i - 1);
      assert ws[i - 1 + 1] == Next(ws[i - 1], steps[i - 1]);
      CountedStep(ws[i - 1], steps[i - 1], k, Faults(ws, steps, i - 1, k));
    }
  }

  /** Under transient failures alone a row goes back to the queue four times, with the growing
      delay, and fails at the fifth. */
  lemma FifthFaultFails(ws: seq<World>, steps: seq<Step>, i: nat, k: DeliveryKey)
    requires IsOrderlyRun(ws, steps) && IsEmpty(ws[0]) && i < |steps|
    requires forall j :: 0 <= j < i ==> !steps[j].event.Crash?
    requires IsFault(ws[i], steps[i], k)
    ensures k in ws[i + 1].db.deliveries
    ensures var f, e := Faults(ws, steps, i, k), ws[i + 1].db.deliveries[k];
      && f <= 4
      && (if f == 4 then e.status == Failed
          else e.status == Pending && e.nextAttemptAt == steps[i].now + Backoff(f + 1))
  {
    hide Faults, IsEmpty, Queued, Next, Legal, Orderly, IsFault, Counted, Backoff;
    CounterIsFaults(ws, steps, i, k);
    EmptyIsQueued(ws[0]);
    AlwaysQueued(ws, steps, i);
    FaultRow(ws[i], steps[i], k, Faults(ws, steps, i, k));
  }

  lemma FaultRow(w: World, s: Step, k: DeliveryKey, faults: nat)
    requires Queued(w) && Legal(w, s) && IsFault(w, s, k) && Counted(w, k, faults)
    ensures k in Next(w, s).db.deliveries
    ensures var e := Next(w, s).db.deliveries[k];
      && faults <= 4
      && (if faults == 4 then e.status == Failed
          else e.status == Pending && e.nextAttemptAt == s.now + Backoff(faults + 1))
  {
    hide Next, Legal, AbortFor, Backoff, RowsAnswer, OneFlightEach;
    var own := FlightKey(s.event.session, k);
    assert Leased(w.clock, w.db.deliveries[k], w.inFlight[own]);
    assert Flying(w, k);
    EveryRowSteps(w, s, k);
  }

  // ---------------------------------------------------------------------------------------------
  // Repeats
  // ---------------------------------------------------------------------------------------------

  /** The sweep takes the delivery back into the queue. */
  ghost predicate Requeued(before: Tables, after: Tables, k: DeliveryKey) {
    && k in before.deliveries && before.deliveries[k].status == Sent
    && k in after.deliveries && after.deliveries[k].status == Pending
  }

  lemma RequeuedExactly(db: Tables, overdue: set<OccurrenceKey>, candidates: set<DeliveryKey>, now: int, k: DeliveryKey)
    ensures Requeued(db, Sweep(db, overdue, candidates, now), k)
            <==> IsRepeated(Expire(db, overdue, now), candidates, k, now)
  {
    hide RepeatMoment, HasContext;
  }

  lemma RequeuedRow(db: Tables, overdue: set<OccurrenceKey>, candidates: set<DeliveryKey>, now: int, k: DeliveryKey)
    requires IsRepeated(Expire(db, overdue, now), candidates, k, now)
    ensures k in Sweep(db, overdue, candidates, now).deliveries && k in db.deliveries
    ensures RepeatMoment(Expire(db, overdue, now), k, now).Some?
    ensures Sweep(db, overdue, candidates, now).deliveries[k].nextAttemptAt
            == RepeatMoment(Expire(db, overdue, now), k, now).value
  {
    hide RepeatMoment, HasContext, ExpireRow;
  }

  lemma BumpedExactly(db: Tables, overdue: set<OccurrenceKey>, candidates: set<DeliveryKey>, now: int, o: OccurrenceKey)
    requires o in db.occurrences
    ensures o in Sweep(db, overdue, candidates, now).occurrences
    ensures Sweep(db, overdue, candidates, now).occurrences[o].repeatsSent
            == db.occurrences[o].repeatsSent
               + if exists k: DeliveryKey :: k.occurrence == o
                       && IsRepeated(Expire(db, overdue, now), candidates, k, now) then 1 else 0
  {
    hide RepeatMoment, IsRepeatCandidate, ExpireRow, ReleaseRow, RepeatRow;
    var expired := Expire(db, overdue, now);
    if k: DeliveryKey :| k.occurrence == o && IsRepeated(expired, candidates, k, now) {
      assert k in candidates;
    }
  }

  /** One sweep raises an occurrence's repeats by one exactly when it takes at least one of its
      deliveries back into the queue, however many they are. */
  lemma SweepSpendsOneRepeat(db: Tables, overdue: set<OccurrenceKey>, candidates: set<DeliveryKey>, now: int,
                             o: OccurrenceKey)
    requires o in db.occurrences
    ensures var after := Sweep(db, overdue, candidates, now);
      && o in after.occurrences
      && after.occurrences[o].repeatsSent
         == db.occurrences[o].repeatsSent + if exists k: DeliveryKey :: k.occurrence == o && Requeued(db, after, k)
            then 1 else 0
  {
    hide Sweep, Expire, IsRepeated, Requeued;
    BumpedExactly(db, overdue, candidates, now, o);
    forall k ensures Requeued(db, Sweep(db, overdue, candidates, now), k)
        <==> IsRepeated(Expire(db, overdue, now), candidates, k, now) {
      RequeuedExactly(db, overdue, candidates, now, k);
    }
  }

  /** What is requeued waits until now or the end of the recipient's silence, and never past the
      lifetime of its occurrence. */
  lemma RequeuedInTime(db: Tables, overdue: set<OccurrenceKey>, candidates: set<DeliveryKey>, now: int, k: DeliveryKey)
    requires Requeued(db, Sweep(db, overdue, candidates, now), k)
    ensures k.occurrence in db.occurrences && k.user in db.users && k in Sweep(db, overdue, candidates, now).deliveries
    ensures var moment, quiet := Sweep(db, overdue, candidates, now).deliveries[k].nextAttemptAt,
            db.users[k.user].quiet;
      && now <= moment < db.occurrences[k.occurrence].expiresAt
      && (moment == now <==> !Covers(quiet, now))
      && (KeepsSilence(quiet) ==> !Covers(quiet, moment))
  {
    RequeuedExactly(db, overdue, candidates, now, k);
    RequeuedRow(db, overdue, candidates, now, k);
    var expired := Expire(db, overdue, now);
    hide Sweep, Requeued, DecideRepeat, Covers, KeepsSilence, ExpireRow;
    var d, o, r := expired.deliveries[k], expired.occurrences[k.occurrence], expired.reminders[k.occurrence.reminder];
    RepeatContract(d.sentAt, r.repeatAfterMinutes, o.repeatsSent, r.maxRepeats, o.expiresAt,
                   expired.users[k.user].quiet, now);
  }

  /** The repeat budget is never exceeded, in any run. */
  lemma RepeatsWithinBudget(ws: seq<World>, steps: seq<Step>, i: nat, o: OccurrenceKey)
    requires IsRun(ws, steps) && IsEmpty(ws[0]) && i < |ws| && o in ws[i].db.occurrences
    ensures o.reminder in ws[i].db.reminders
    ensures ws[i].db.occurrences[o].repeatsSent <= ws[i].db.reminders[o.reminder].maxRepeats
  {
    hide IsRun;
    EmptyIsOk(ws[0]);
    RunKeepsInv(ws, steps, i);
    assert OccurrenceOk(ws[i].clock, ws[i].db.occurrences[o], ws[i].db.reminders[o.reminder].maxRepeats);
  }

  // ---------------------------------------------------------------------------------------------
  // Messages
  // ---------------------------------------------------------------------------------------------

  /** Messages of a delivery that went out since its row was inserted. */
  ghost function Messages(ws: seq<World>, steps: seq<Step>, i: nat, k: DeliveryKey): nat
    requires i <= |steps| <= |ws|
  {
    if i == 0 || k !in ws[i - 1].db.deliveries then 0
    else Messages(ws, steps, i - 1, k) + if IsSuccess(ws[i - 1], steps[i - 1], k) then 1 else 0
  }

  ghost predicate IsRequeue(w: World, s: Step, k: DeliveryKey) {
    s.event.Reap? && Requeued(w.db, Next(w, s).db, k)
  }

  /** Times a sweep took it back into the queue. */
  ghost function Requeues(ws: seq<World>, steps: seq<Step>, i: nat, k: DeliveryKey): nat
    requires i <= |steps| <= |ws|
  {
    if i == 0 || k !in ws[i - 1].db.deliveries then 0
    else Requeues(ws, steps, i - 1, k) + if IsRequeue(ws[i - 1], steps[i - 1], k) then 1 else 0
  }

  /** Every message but the first was asked for, by a snooze or by a repeat; a row in the queue is
      about to use one of those up. */
  predicate IsAskedFor(d: Delivery, messages: nat, requeues: nat) {
    messages + (if IsQueued(d) then 1 else 0) <= 1 + CountOf(d.actions, SnoozeAction) + requeues
  }

  ghost predicate Bounded(w: World, k: DeliveryKey, messages: nat, requeues: nat) {
    k in w.db.deliveries ==>
      && k.occurrence in w.db.occurrences
      && IsAskedFor(w.db.deliveries[k], messages, requeues)
      && requeues <= w.db.occurrences[k.occurrence].repeatsSent
  }

  lemma AskedForRow(w: World, s: Step, k: DeliveryKey, messages: nat, requeues: nat, e: Delivery)
    requires FlightsLeased(w) && Legal(w, s) && k in w.db.deliveries
    requires IsAskedFor(w.db.deliveries[k], messages, requeues) && RowChange(w, s, k, w.db.deliveries[k], e)
    ensures IsAskedFor(e, messages + (if IsSuccess(w, s, k) then 1 else 0),
                       requeues + if s.event.Reap? && w.db.deliveries[k].status == Sent && e.status == Pending then 1
                         else 0)
  {
    hide CountOf, React, AbortFor, NextAttempt;
    var d := w.db.deliveries[k];
    if s.event.Tap? { CountAppend(d.actions, Action(s.event.kind, s.now), SnoozeAction); }
    CountAppend(d.actions, Action(AutoExpireAction, s.now), SnoozeAction);
    if SettlesRow(w, s, k) {
      assert Leased(w.clock, d, w.inFlight[FlightKey(s.event.session, k)]);
    }
  }

  lemma RepeatsStep(w: World, s: Step, k: DeliveryKey)
    requires Legal(w, s) && k.occurrence in w.db.occurrences && k.occurrence in Next(w, s).db.occurrences
    ensures w.db.occurrences[k.occurrence].repeatsSent + (if IsRequeue(w, s, k) then 1 else 0)
            <= Next(w, s).db.occurrences[k.occurrence].repeatsSent
  {
    hide Sweep, Requeued, Flights;
    if s.event.Reap? {
      SweepSpendsOneRepeat(w.db, s.event.overdue, s.event.candidates, s.now, k.occurrence);
    } else {
      hide Next;
      OccurrenceKeeps(w, s, k.occurrence);
    }
  }

  lemma BoundedStep(w: World, s: Step, k: DeliveryKey, messages: nat, requeues: nat)
    requires Inv(w) && Inv(Next(w, s)) && FlightsLeased(w) && Legal(w, s) && Bounded(w, k, messages, requeues)
    ensures Bounded(Next(w, s), k,
                    if k !in w.db.deliveries then 0 else messages + if IsSuccess(w, s, k) then 1 else 0,
                    if k !in w.db.deliveries then 0 else requeues + if IsRequeue(w, s, k) then 1 else 0)
  {
    hide Next, Legal, RowChange, IsAskedFor, IsSuccess, RowOk, OccurrencesOk, Fits, FlightsOk, FlightsLeased;
    EveryRowSteps(w, s, k);
    if k in Next(w, s).db.deliveries {
      if k in w.db.deliveries {
        RepeatsStep(w, s, k);
        AskedForRow(w, s, k, messages, requeues, Next(w, s).db.deliveries[k]);
      } else {
        FreshIsAskedFor(Next(w, s).db.occurrences[k.occurrence].fireAt);
      }
    }
  }

  lemma FreshIsAskedFor(fireAt: int)
    ensures IsAskedFor(FreshDelivery(fireAt), 0, 0)
  {
  }

  lemma {:induction false} AlwaysBounded(ws: seq<World>, steps: seq<Step>, i: nat, k: DeliveryKey)
    requires IsOrderlyRun(ws, steps) && IsEmpty(ws[0]) && i < |ws|
    ensures Bounded(ws[i], k, Messages(ws, steps, i, k), Requeues(ws, steps, i, k))
  {
    hide Inv, Legal, Orderly, Next, Bounded, IsSuccess, IsRequeue, FlightsLeased;
    EmptyIsOk(ws[0]);
    EmptyIsQueued(ws[0]);
    if i == 0 {
      NothingYet(ws[0], k);
    } else {
      AlwaysBounded(ws, steps, i - 1, k);
      RunKeepsInv(ws, steps, i - 1);
      RunKeepsInv(ws, steps, i);
      AlwaysQueued(ws, steps, i - 1);
      assert ws[i - 1 + 1] == Next(ws[i - 1], steps[i - 1]);
      BoundedStep(ws[i - 1], steps[i - 1], k, Messages(ws, steps, i - 1, k), Requeues(ws, steps, i - 1, k));
    }
  }

  lemma NothingYet(w: World, k: DeliveryKey)
    requires IsEmpty(w)
    ensures Bounded(w, k, 0, 0)
  {
  }

  /** Nobody is nagged: of one occurrence a recipient gets one message, one more for every snooze they
      asked for, and at most `max_repeats` more, in every orderly run. (A worker that dies between
      sending and writing its verdict leaves a message behind that no table knows of.) */
  lemma MessagesAreAskedFor(ws: seq<World>, steps: seq<Step>, i: nat, k: DeliveryKey)
    requires IsOrderlyRun(ws, steps) && IsEmpty(ws[0]) && i < |ws| && k in ws[i].db.deliveries
    ensures k.occurrence in ws[i].db.occurrences && k.occurrence.reminder in ws[i].db.reminders
    ensures Messages(ws, steps, i, k)
            <= 1 + CountOf(ws[i].db.deliveries[k].actions, SnoozeAction)
               + ws[i].db.reminders[k.occurrence.reminder].maxRepeats
  {
    assert IsRun(ws, steps);
    hide IsOrderlyRun, IsRun, IsEmpty, Messages, Requeues, CountOf;
    AlwaysBounded(ws, steps, i, k);
    RepeatsWithinBudget(ws, steps, i, k.occurrence);
  }
}
